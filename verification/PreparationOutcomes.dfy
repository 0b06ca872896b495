/**
 What the last recovery reaches, after any history: when it goes through, and what a resume makes of a preparation
 that was partly rolled back.
*/
module PreparationOutcomes {
  import opened Options
  import opened PreparationModel
  import opened PreparationResume
  import opened PreparationForward
  import opened PreparationRollback
  import opened PreparationWindows
  import opened PreparationHistory

  /** After any history a rollback that its first checks accept goes through, unless it is killed, and leaves nothing. */
  lemma LastRollback(p: Plan, s: State, cut: nat, history: seq<Command>, fuel: nat)
    requires WellFormed(p) && Ready(p, s) && fuel >= 3 * |Undos(p)|
    ensures var t := Replay(p, RunForward(p, s, cut).state, history);
            var r := RunRollback(p, t, fuel);
            && (r.status == Running <==> RollbackAllowed(p, t))
            && (r.status == Running ==> Undone(p, r.state)) && (r.status != Running ==> r == Run(t, fuel, Died))
  {
    hide Undos, ResumeMoves, RunForward, Ready, Cut, Steady, OpenAt, Replay, RollbackAllowed, DatabaseAllowed, StrandedFresh, Undone, RunUndos, WellFormed;
    HistoryKeeps(p, s, cut, history);
    var t := Replay(p, RunForward(p, s, cut).state, history);
    if Cut(p, RunForward(p, s, cut).state) {
      var k :| k in Keys(p) && StrandedFresh(p, t, k);
      StrandedRefused(p, t, k, Rollback);
      KeyRefused(p, t, k);
    } else if Steady(p, t) {
      SteadyRollback(p, t, fuel);
    } else {
      var i: nat :| OpenAt(p, t, i);
      OpenRefuses(p, t, i);
    }
  }

  lemma SteadyRollback(p: Plan, s: State, fuel: nat)
    requires WellFormed(p) && Steady(p, s) && fuel >= 3 * |Undos(p)|
    ensures var r := RunRollback(p, s, fuel);
            && (r.status == Running <==> RollbackAllowed(p, s))
            && (r.status == Running ==> Undone(p, r.state)) && (r.status != Running ==> r == Run(s, fuel, Died))
  {
    hide Undos, Undoable, Fits, Aged, RunUndos, RollbackAllowed, Undone, Unblocked;
    RollbackKeeps(p, s, fuel);
    RollbackAllowedExactly(p, s);
    RefusedAsIs(p, s, fuel);
  }

  /** Everything is published, except that database files which a rollback restored stay as they are. */
  ghost predicate ResumedFrom(p: Plan, s: State, t: State) {
    && InPlace(p, t) && Is(Look(t.disk, Final(Pointer)), p.inode(Pointer))
    && (p.kind == Intermediate ==> Look(t.disk, Staged(Signing)) == None)
    && forall k :: k in Keys(p) ==> FileResumed(p, s, t, k)
  }

  predicate FileResumed(p: Plan, s: State, t: State, k: Key) {
    var before, after := Look(s.disk, Final(Database(k))), Look(t.disk, Final(Database(k)));
    if p.source(k) == None then after == p.pre(k)
    else if SameState(before, p.replica(k)) then after == before
    else SameState(after, p.source(k)) && k in t.journal.post && after == Some(t.journal.post[k])
  }

  lemma GoneThrough(p: Plan, start: Journal, s: State)
    requires WellFormed(p) && Going(p, start, s, |ResumeMoves(p)|)
    ensures InPlace(p, s) && Is(Look(s.disk, Final(Pointer)), p.inode(Pointer))
    ensures p.kind == Intermediate ==> Look(s.disk, Staged(Signing)) == None
    ensures forall k :: k in Keys(p) ==> Processed(p, s, Update(k))
  {
    hide ResumeMoves, Steady, SettledUndos, AnyGone, StartFits, FileReady;
    FixedMoves(p);
    var last := |ResumeMoves(p)| - 1;
    PointerIsLast(p, last);
    ProcessedLess(p, s, last);
    PointerLast(p, s, last);
    forall m | m in ResumeMoves(p) ensures Processed(p, s, m) {
      var j :| 0 <= j < |ResumeMoves(p)| && ResumeMoves(p)[j] == m;
    }
    assert Processed(p, s, Publish(Pointer));
    if p.kind == Intermediate { assert Processed(p, s, Discard); }
    forall k | k in Keys(p) ensures Processed(p, s, Update(k)) { UpdateInPlan(p, k); }
  }

  lemma ProcessedLess(p: Plan, s: State, i: nat)
    requires ProcessedBefore(p, s, |ResumeMoves(p)|) && i <= |ResumeMoves(p)|
    ensures ProcessedBefore(p, s, i)
  {
    hide ResumeMoves, Processed;
  }

  lemma FileGoneThrough(p: Plan, start: Journal, s: State, t: State, k: Key)
    requires WellFormed(p) && Going(p, start, t, |ResumeMoves(p)|) && k in Keys(p) && Processed(p, t, Update(k)) && Spared(p, s, t, k)
    ensures FileResumed(p, s, t, k)
  {
    hide Undos, ResumeMoves, InStage, ReturnWindow, GoneShows, InPlace, AllGone, Withdrawing, AnyGone, ProcessedBefore, FileReady, StartFits, SideFits, Aged;
    assert KeyWellFormed(p, k);
    RestoreIn(p, k);
    assert UndoPhase(p, t, Restore(k)) != Broken && UndoPhase(p, t, Restore(k)) != Unrecorded;
    RecordFits(p, t, k);
    assert FileFits(p, t, k);
  }

  /**
   After any history a resume that is not killed goes through exactly if its first checks accept it and the pointer
   was not withdrawn. It publishes everything but the database files that a rollback had restored.
  */
  lemma LastResume(p: Plan, s: State, cut: nat, history: seq<Command>, fuel: nat)
    requires WellFormed(p) && Ready(p, s) && fuel >= 3 * |ResumeMoves(p)|
    ensures var t := Replay(p, RunForward(p, s, cut).state, history);
            var r := RunResume(p, t, fuel);
            && (r.status == Running <==> ResumeAllowed(p, t) && !PointerLost(p, t))
            && (r.status == Running ==> ResumedFrom(p, t, r.state))
            && (!ResumeAllowed(p, t) ==> r == Run(t, fuel, Died))
            && r.status != Crashed
  {
    hide ResumeMoves, RunForward, Ready, Cut, Steady, OpenAt, Replay, ResumeAllowed, StrandedFresh, RunMoves, PointerLost, Going, ResumedFrom, WellFormed;
    HistoryKeeps(p, s, cut, history);
    var t := Replay(p, RunForward(p, s, cut).state, history);
    if Cut(p, RunForward(p, s, cut).state) {
      var k :| k in Keys(p) && StrandedFresh(p, t, k);
      StrandedRefused(p, t, k, Resume);
    } else if ResumeAllowed(p, t) {
      KeptResume(p, t, fuel);
    }
  }

  lemma KeptResume(p: Plan, s: State, fuel: nat)
    requires WellFormed(p) && Kept(p, s) && ResumeAllowed(p, s) && fuel >= 3 * |ResumeMoves(p)|
    ensures var r := RunResume(p, s, fuel);
            && (r.status == Running <==> !PointerLost(p, s)) && r.status != Crashed
            && (r.status == Running ==> ResumedFrom(p, s, r.state))
  {
    hide ResumeMoves, Steady, OpenAt, ResumeAllowed, RunMoves, PointerLost, Going, InPlace, FileResumed;
    if Steady(p, s) { SteadyResume(p, s, fuel); } else { var i: nat :| OpenAt(p, s, i); OpenResume(p, s, i, fuel); }
    var r := RunResume(p, s, fuel);
    if r.status == Running {
      GoneThrough(p, s.journal, r.state);
      forall k | k in Keys(p) ensures FileResumed(p, s, r.state, k) {
        WellFormedKey(p, k);
        MovesSane(p);
        MovesSpare(p, s.journal, s, ResumeMoves(p), fuel, k);
        FileGoneThrough(p, s.journal, s, r.state, k);
      }
    }
  }

  // ------------------------------------------- a resume without a database file

  /** The publishing run, stopped before its move `j`. */
  lemma {:induction false} ForwardStops(p: Plan, start: Journal, s: State, i: nat, j: nat) returns (cut: nat, t: State)
    requires WellFormed(p) && ForwardAt(p, s, i) && i <= j < |ResumeMoves(p)| && !ResumeMoves(p)[j].Update?
    ensures ForwardAt(p, t, j) && RunMoves(p, start, s, Forward, ResumeMoves(p)[i..], cut).state == t
    decreases j - i
  {
    hide ResumeMoves, PhaseOf, ForwardAt, Due, Adopts, Possible, Effect, Recorded, Inert, StrandedFresh;
    cut, t := 0, s;
    AtPhase(p, s, i);
    var m := ResumeMoves(p)[i];
    ForwardDue(p, start, s, m);
    assert ResumeMoves(p)[i..][1..] == ResumeMoves(p)[i + 1..];
    if i == j {
      NotInert(p, m);
    } else if Inert(p, m) {
      InertPasses(p, s, i);
      cut, t := ForwardStops(p, start, s, i + 1, j);
    } else {
      ForwardStep(p, s, i);
      var pending := Checkpoint(s, Forward, m, false);
      var done := Checkpoint(Recorded(Effect(p, pending, Forward, m), m), Forward, m, true);
      cut, t := ForwardStops(p, start, done, i + 1, j);
      cut := cut + 3;
    }
  }

  lemma NotInert(p: Plan, m: Move)
    ensures !m.Update? ==> !Inert(p, m)
  {
  }

  lemma PointerFollows(p: Plan)
    ensures Before(p) <= |ResumeMoves(p)| - 1
  {
  }

  /** A preparation with everything published but its pointer. */
  lemma BeforePointer(p: Plan, s: State) returns (cut: nat)
    requires WellFormed(p) && Ready(p, s)
    ensures var t := RunForward(p, s, cut).state;
            ForwardAt(p, t, |ResumeMoves(p)| - 1) && Steady(p, t) && Unblocked(p, t)
  {
    hide ResumeMoves, ForwardMoves, RunMoves, ForwardAt, Steady, Unblocked, Ready, Cut, Aged, WellFormed;
    ForwardSuffix(p);
    ReadyAt(p, s);
    PointerFollows(p);
    var last := |ResumeMoves(p)| - 1;
    PointerIsLast(p, last);
    var t;
    cut, t := ForwardStops(p, s.journal, s, Before(p), last);
    KilledSteady(p, s, cut);
    ForwardSteady(p, t, last);
  }

  lemma {:induction false} Stuck(p: Plan, start: Journal, s: State, us: seq<Undo>)
    ensures RunUndos(p, start, s, us, 0).state == s
    decreases |us|
  {
    hide Readopts, UndoDue;
    if us != [] {
      var r := RunUndo(p, start, s, us[0], 0);
      if r.status == Running { Stuck(p, start, r.state, us[1..]); }
    }
  }

  /** What the restoration of one file leaves, the pointer being still staged. */
  function Restored(p: Plan, s: State, k: Key): State
    requires UndoPossible(p, s, Restore(k))
  {
    UndoCheckpoint(Rerecorded(p, UndoEffect(p, UndoCheckpoint(s, Restore(k), false), Restore(k)), Restore(k)), Restore(k), true)
  }

  lemma FirstRestored(p: Plan, s: State, k: Key)
    requires WellFormed(p) && Keys(p) != [] && Keys(p)[0] == k && Look(s.disk, Final(Pointer)) == None
    requires Undoable(p, s) && UndoPhase(p, s, Restore(k)) == Todo && RollbackAllowed(p, s)
    ensures UndoPossible(p, s, Restore(k)) && RunRollback(p, s, 3).state == Restored(p, s, k)
  {
    hide Undos, UndoPhase, Undoable, RollbackAllowed, UndoEffect, Readopts;
    UndosLength(p);
    UndoAt(p, 0);
    UndoAt(p, 1);
    assert Undos(p)[1..] == [Undos(p)[1]] + Undos(p)[2..];
    assert Undos(p)[1..][0] == Restore(k) && Undos(p)[1..][1..] == Undos(p)[2..];
    PointerAbsent(p, s.journal, s);
    RestoreDue(p, s.journal, s, k);
    assert RunUndos(p, s.journal, s, Undos(p), 3) == RunUndos(p, s.journal, s, Undos(p)[1..], 3);
    assert RunUndos(p, s.journal, s, Undos(p)[1..], 3) == RunUndos(p, s.journal, Restored(p, s, k), Undos(p)[2..], 0);
    Stuck(p, s.journal, Restored(p, s, k), Undos(p)[2..]);
  }

  lemma PointerAbsent(p: Plan, start: Journal, s: State)
    requires Look(s.disk, Final(Pointer)) == None
    ensures RunUndo(p, start, s, Withdraw(Pointer), 3) == Run(s, 3, Running)
  {
  }

  lemma RestoreDue(p: Plan, start: Journal, s: State, k: Key)
    requires WellFormed(p) && k in Keys(p) && Undoable(p, s) && UndoPhase(p, s, Restore(k)) == Todo
    ensures UndoPossible(p, s, Restore(k)) && RunUndo(p, start, s, Restore(k), 3) == Run(Restored(p, s, k), 0, Running)
  {
    hide Undos, UndoPhase, UndoEffect, UndoDue, Readopts, ReturnWindow, GoneShows;
    RestoreIn(p, k);
    UndoDueExactly(p, start, s, Restore(k));
    PossibleSame(p, s, Restore(k));
  }

  lemma PossibleSame(p: Plan, s: State, u: Undo)
    ensures UndoPossible(p, UndoCheckpoint(s, u, false), u) == UndoPossible(p, s, u)
  {
  }

  /** Restoring a file changes nothing of the other objects. */
  lemma RestoredState(p: Plan, s: State, k: Key)
    requires WellFormed(p) && k in Keys(p) && p.pre(k).Some? && UndoPossible(p, s, Restore(k)) && Unblocked(p, s)
    requires !AnyGone(p, s) && !PointerLost(p, s) && k in s.journal.post && SameState(Some(s.journal.post[k]), p.source(k))
    ensures var t := Restored(p, s, k);
            && !AnyGone(p, t) && !PointerLost(p, t) && Unblocked(p, t)
            && SameState(Look(t.disk, Final(Database(k))), p.replica(k)) && !t.journal.step.At?
  {
    hide Undos, ResumeMoves;
    assert KeyWellFormed(p, k);
    var t := Restored(p, s, k);
    forall x ensures x != Final(Database(k)) && x != Replica(k) ==> Look(t.disk, x) == Look(s.disk, x) { }
  }

  /** The first checks of a resume, on a steady state: every tree is there, nothing waits, and nothing is blocked. */
  lemma SteadyResumable(p: Plan, s: State)
    requires WellFormed(p) && Steady(p, s) && SettledUndos(p, s) && !AnyGone(p, s) && Unblocked(p, s)
    ensures ResumeAllowed(p, s)
  {
    hide Undos, InStage, DatabaseAllowed, Blocked, UndoPhase, Fits, Aged, ReservationAllowed, SessionAllowed, PointerAllowed, StageAllowed, SigningAllowed, Located, Gone;
    FixedAllowed(p, s);
    TreeLocated(p, s, Rollover);
    forall side | side in Sides(p) ensures ReservationAllowed(p, s, side) && Located(p, s, Authority(side)) {
      SideAllowed(p, s, side);
      TreeLocated(p, s, Authority(side));
    }
    forall k | k in Keys(p) ensures DatabaseAllowed(p, s, Resume, k) { SteadyFile(p, s, k); }
  }

  lemma TreeLocated(p: Plan, s: State, slot: Slot)
    requires Steady(p, s) && Tree(p, slot) && !Gone(p, s, slot)
    ensures Located(p, s, slot)
  {
    hide Undos, Undoable, Fits, Aged;
    SteadyPhases(p, s);
  }

  lemma SteadyFile(p: Plan, s: State, k: Key)
    requires WellFormed(p) && Steady(p, s) && SettledUndos(p, s) && k in Keys(p) && !Blocked(p, s, k)
    ensures DatabaseAllowed(p, s, Resume, k)
  {
    hide Undos, InStage, ReturnWindow, GoneShows, InPlace, AllGone, Withdrawing, Aged;
    assert KeyWellFormed(p, k) && FileFits(p, s, k);
    RestoreIn(p, k);
    assert UndoPhase(p, s, Restore(k)) != Broken && UndoPhase(p, s, Restore(k)) != Unrecorded;
    RecordFits(p, s, k);
  }

  /**
   For every preparation whose first database file is replaced: killed before its pointer, then a rollback killed
   after it has restored that file, then a resume. It goes through, and the file stands as before the preparation.
  */
  lemma ResumesWithoutFile(p: Plan, s: State, fuel: nat) returns (cut: nat)
    requires WellFormed(p) && Ready(p, s) && fuel >= 3 * |ResumeMoves(p)|
    requires Keys(p) != [] && p.pre(Keys(p)[0]).Some? && p.source(Keys(p)[0]).Some?
    ensures var k := Keys(p)[0];
            var t := Replay(p, RunForward(p, s, cut).state, [Command(Rollback, 3)]);
            var r := RunResume(p, t, fuel);
            && r.status == Running && ResumedFrom(p, t, r.state)
            && SameState(Look(r.state.disk, Final(Database(k))), p.replica(k))
            && !SameState(Look(r.state.disk, Final(Database(k))), p.source(k))
  {
    hide Undos, ResumeMoves, RunForward, RunMoves, RunUndos, Ready, Steady, Unblocked, ForwardAt, ResumeAllowed, RollbackAllowed, PointerLost,
      InPlace, WellFormed, Restored, AnyGone, SettledUndos, UndoPossible, Kept;
    var k := Keys(p)[0];
    cut := BeforePointer(p, s);
    var a := RunForward(p, s, cut).state;
    WellFormedKey(p, k);
    FileBeforePointer(p, a, k);
    SteadyAllowed(p, a);
    FirstRestored(p, a, k);
    RestoredState(p, a, k);
    var t := Restored(p, a, k);
    assert Replay(p, a, [Command(Rollback, 3)]) == t by { ReplayOne(p, a, Command(Rollback, 3)); }
    RollbackSteady(p, a, 3);
    RestoredSettled(p, a, k);
    SteadyResumable(p, t);
    SteadyKept(p, t);
    KeptResume(p, t, fuel);
  }

  lemma ReplayOne(p: Plan, s: State, c: Command)
    ensures Replay(p, s, [c]) == RunCommand(p, s, c).state
  {
    hide RunCommand;
    assert [c][1..] == [];
  }

  lemma SteadyAllowed(p: Plan, s: State)
    requires WellFormed(p) && Steady(p, s) && Unblocked(p, s)
    ensures RollbackAllowed(p, s) && Undoable(p, s)
  {
    hide Undos, Undoable, Fits, Aged, Unblocked, RollbackAllowed;
    RollbackAllowedExactly(p, s);
  }

  lemma FileBeforePointer(p: Plan, s: State, k: Key)
    requires WellFormed(p) && ForwardAt(p, s, |ResumeMoves(p)| - 1) && k in Keys(p) && p.source(k).Some? && p.pre(k).Some?
    ensures UndoPhase(p, s, Restore(k)) == Todo && k in s.journal.post && SameState(Some(s.journal.post[k]), p.source(k))
    ensures Look(s.disk, Final(Pointer)) == None && !PointerLost(p, s) && !AnyGone(p, s)
  {
    hide ResumeMoves, Undos, InStage, Young;
    var ms := ResumeMoves(p);
    UpdateInPlan(p, k);
    FixedMoves(p);
    PointerIsLast(p, |ms| - 1);
    var j :| 0 <= j < |ms| && ms[j] == Update(k);
    assert PhaseOf(p, s, ms[j]) == Done && PhaseOf(p, s, ms[|ms| - 1]) == Todo;
    assert KeyWellFormed(p, k);
    forall slot | Tree(p, slot) ensures !Gone(p, s, slot) { SoundTree(p, s, slot); }
  }

  lemma SoundTree(p: Plan, s: State, slot: Slot)
    requires Sound(p, s, ResumeMoves(p)) && Tree(p, slot)
    ensures !Gone(p, s, slot)
  {
    hide ResumeMoves;
    FixedMoves(p);
    if slot.Authority? { SideMoves(p, slot.side); }
    assert PhaseOf(p, s, Publish(slot)) != Broken;
  }

  lemma RestoredSettled(p: Plan, s: State, k: Key)
    requires UndoPossible(p, s, Restore(k)) && Steady(p, Restored(p, s, k))
    ensures SettledUndos(p, Restored(p, s, k))
  {
    hide Undos, UndoPhase, GoneShows, Whole, Fits, Aged;
  }
}
