/**
 From the publishing run through resumes to rollbacks: when the first rollback is accepted, what it leaves behind,
 and that a rollback which went through to the end but did not commit is often refused when it is run again.
*/
module PreparationWindows {
  import opened Options
  import opened PreparationModel
  import opened PreparationResume
  import opened PreparationForward
  import opened PreparationRollback

  // ---------------------------------------------------- only a resume goes on

  /** A database file is younger than the staged one or the copy that it was. */
  predicate Aged(p: Plan, s: State) {
    && Young(p, s)
    && forall k :: k in Keys(p) ==>
         var final := Look(s.disk, Final(Database(k)));
         (SameState(final, p.source(k)) ==> final != p.source(k)) && (SameState(final, p.replica(k)) ==> final != p.replica(k))
  }

  lemma MoveAges(p: Plan, start: Journal, s: State, who: Who, m: Move, fuel: nat)
    requires Aged(p, s) && Sane(m) && (m.Update? ==> m.key in Keys(p))
    ensures Aged(p, RunMove(p, start, s, who, m, fuel).state)
  {
    hide Due, Adopts;
  }

  lemma {:induction false} MovesAge(p: Plan, start: Journal, s: State, who: Who, ms: seq<Move>, fuel: nat)
    requires Aged(p, s) && forall m :: m in ms ==> Sane(m) && (m.Update? ==> m.key in Keys(p))
    ensures Aged(p, RunMoves(p, start, s, who, ms, fuel).state)
    decreases |ms|
  {
    hide RunMove, Aged;
    if ms != [] {
      MoveAges(p, start, s, who, ms[0], fuel);
      var r := RunMove(p, start, s, who, ms[0], fuel);
      MovesAge(p, start, r.state, who, ms[1..], r.fuel);
    }
  }

  lemma MovesInPlan(p: Plan, m: Move)
    requires m in ResumeMoves(p) || m in ForwardMoves(p)
    ensures Sane(m) && (m.Update? ==> m.key in Keys(p))
  {
    hide ResumeMoves, ForwardMoves;
    MovesSane(p);
    ForwardSuffix(p);
    if m in ForwardMoves(p) { assert m in ResumeMoves(p)[Before(p)..]; }
    InPlan(p, m);
  }

  lemma ReadyAged(p: Plan, s: State)
    requires WellFormed(p) && Ready(p, s)
    ensures Aged(p, s)
  {
    hide ResumeMoves;
    forall k | k in Keys(p)
      ensures !SameState(Look(s.disk, Final(Database(k))), p.source(k)) && !SameState(Look(s.disk, Final(Database(k))), p.replica(k))
    {
      UpdateInPlan(p, k);
      UpdateStarts(p, s, k);
      assert KeyWellFormed(p, k);
    }
  }

  lemma UpdateStarts(p: Plan, s: State, k: Key)
    requires Ready(p, s) && k in Keys(p)
    ensures Look(s.disk, Final(Database(k))) == p.pre(k)
  {
    hide ResumeMoves, Evidence;
    ForwardSuffix(p);
    UpdateInPlan(p, k);
    assert Update(k) in ResumeMoves(p)[Before(p)..];
    var j :| Before(p) <= j < |ResumeMoves(p)| && ResumeMoves(p)[j] == Update(k);
    assert PhaseOf(p, s, ResumeMoves(p)[j]) == if Inert(p, ResumeMoves(p)[j]) then Done else Todo;
  }

  lemma {:induction false} ResumesAge(p: Plan, s: State, fuels: seq<nat>)
    requires Aged(p, s)
    ensures Aged(p, Resumes(p, s, fuels))
    decreases |fuels|
  {
    hide Aged, ResumeMoves, ForwardMoves, ResumeAllowed, RunMoves;
    if fuels != [] {
      forall m | m in ResumeMoves(p) ensures Sane(m) && (m.Update? ==> m.key in Keys(p)) { MovesInPlan(p, m); }
      MovesAge(p, s.journal, s, Resuming, ResumeMoves(p), fuels[0]);
      ResumesAge(p, RunResume(p, s, fuels[0]).state, fuels[1..]);
    }
  }

  lemma ForwardAges(p: Plan, s: State, cut: nat)
    requires Aged(p, s)
    ensures Aged(p, RunForward(p, s, cut).state)
  {
    hide Aged, ForwardMoves, ResumeMoves, RunMoves;
    forall m | m in ForwardMoves(p) ensures Sane(m) && (m.Update? ==> m.key in Keys(p)) { MovesInPlan(p, m); }
    MovesAge(p, s.journal, s, Forward, ForwardMoves(p), cut);
  }

  /** A resume killed inside its window refuses a rollback. */
  lemma WindowRefusesRollback(p: Plan, s: State, k: Key)
    requires WellFormed(p) && k in Keys(p) && PhaseOf(p, s, Update(k)) == Unrecorded && Aged(p, s) && s.journal.restored == map[]
    ensures !RollbackAllowed(p, s)
  {
    assert KeyWellFormed(p, k);
    assert !DatabaseAllowed(p, s, Rollback, k);
  }

  lemma UnsettledRefused(p: Plan, s: State)
    requires WellFormed(p) && Aged(p, s) && s.journal.restored == map[] && !Settled(p, s, ResumeMoves(p))
    ensures !RollbackAllowed(p, s)
  {
    hide ResumeMoves, PhaseOf, Aged, RollbackAllowed;
    var m :| m in ResumeMoves(p) && PhaseOf(p, s, m) == Unrecorded;
    UnrecordedUpdate(p, s, m);
    InPlan(p, m);
    WindowRefusesRollback(p, s, m.key);
  }

  /**
   A publishing run killed anywhere, then interrupted resumes: a rollback is accepted exactly if every rename is
   recorded. If one is not, a resume still completes, unless it was the publishing run that was killed there.
  */
  lemma RollbackAcceptedExactly(p: Plan, s: State, cut: nat, resumes: seq<nat>, fuel: nat)
    requires WellFormed(p) && Ready(p, s) && fuel >= 3 * |ResumeMoves(p)|
    ensures var killed := RunForward(p, s, cut).state;
            var t := Resumes(p, killed, resumes);
            && (RollbackAllowed(p, t) <==> !Cut(p, killed) && Settled(p, t, ResumeMoves(p)))
            && (RollbackAllowed(p, t) ==> Undoable(p, t))
            && (!Cut(p, killed) ==> RunResume(p, t, fuel).status == Running)
            && (Cut(p, killed) ==> t == killed && RunResume(p, t, fuel) == Run(t, fuel, Died))
  {
    hide Undos, ResumeMoves, ForwardMoves, RunForward, Settled, Undoable, Unblocked, RunMoves, ForwardAt, Resumable, Complete,
      Cut, WellFormed, Aged, Ready, RollbackAllowed, ResumeAllowed, StrandedFresh, DatabaseAllowed;
    var killed := RunForward(p, s, cut).state;
    ForwardCuts(p, s, cut);
    ReadyAged(p, s);
    ForwardAges(p, s, cut);
    var t := Resumes(p, killed, resumes);
    if Cut(p, killed) {
      var k := CutStrands(p, killed);
      StrandedRefused(p, killed, k, Resume);
      StrandedRefused(p, killed, k, Rollback);
      RefusedForEver(p, killed, resumes);
      KeyRefused(p, killed, k);
    } else {
      LeftUncut(p, killed);
      ResumesComplete(p, killed, resumes, fuel);
      ForwardRestoresNothing(p, s, cut);
      ResumesRestoreNothing(p, killed, resumes);
      ResumesAge(p, killed, resumes);
      if Settled(p, t, ResumeMoves(p)) {
        ResumableUndoable(p, t);
        RollbackAllowedExactly(p, t);
      } else {
        UnsettledRefused(p, t);
      }
    }
  }

  lemma KeyRefused(p: Plan, s: State, k: Key)
    requires k in Keys(p) && !DatabaseAllowed(p, s, Rollback, k)
    ensures !RollbackAllowed(p, s)
  {
    hide DatabaseAllowed;
  }

  // -------------------------------------------------------- the whole history

  lemma MoveRestoresNothing(p: Plan, start: Journal, s: State, who: Who, m: Move, fuel: nat)
    ensures RunMove(p, start, s, who, m, fuel).state.journal.restored == s.journal.restored
  {
    hide Due, Adopts, Possible;
  }

  lemma {:induction false} MovesRestoreNothing(p: Plan, start: Journal, s: State, who: Who, ms: seq<Move>, fuel: nat)
    ensures RunMoves(p, start, s, who, ms, fuel).state.journal.restored == s.journal.restored
    decreases |ms|
  {
    hide RunMove;
    if ms != [] {
      MoveRestoresNothing(p, start, s, who, ms[0], fuel);
      var r := RunMove(p, start, s, who, ms[0], fuel);
      MovesRestoreNothing(p, start, r.state, who, ms[1..], r.fuel);
    }
  }

  lemma {:induction false} ResumesRestoreNothing(p: Plan, s: State, fuels: seq<nat>)
    ensures Resumes(p, s, fuels).journal.restored == s.journal.restored
    decreases |fuels|
  {
    hide ResumeAllowed, ResumeMoves, RunMoves;
    if fuels != [] {
      MovesRestoreNothing(p, s.journal, s, Resuming, ResumeMoves(p), fuels[0]);
      ResumesRestoreNothing(p, RunResume(p, s, fuels[0]).state, fuels[1..]);
    }
  }

  lemma ForwardRestoresNothing(p: Plan, s: State, cut: nat)
    requires Ready(p, s)
    ensures RunForward(p, s, cut).state.journal.restored == map[]
  {
    hide ForwardMoves, ResumeMoves, RunMoves, PhaseOf;
    MovesRestoreNothing(p, s.journal, s, Forward, ForwardMoves(p), cut);
  }


  /**
   A publishing run killed anywhere, interrupted resumes, interrupted rollbacks, then one more rollback: it removes
   everything exactly if every rename had been recorded when the first rollback began and no file is blocked now.
   Otherwise it is refused and changes nothing, and then no rollback has ever changed anything or no recovery does.
  */
  lemma KilledRunRollsBack(p: Plan, s: State, cut: nat, resumes: seq<nat>, rollbacks: seq<nat>, fuel: nat)
    requires WellFormed(p) && Ready(p, s) && fuel >= 3 * |Undos(p)| && fuel >= 3 * |ResumeMoves(p)|
    ensures var t := Resumes(p, RunForward(p, s, cut).state, resumes);
            var u := Rollbacks(p, t, rollbacks);
            var r := RunRollback(p, u, fuel);
            && (r.status == Running <==> RollbackAllowed(p, t) && Unblocked(p, u))
            && (r.status == Running ==> Undone(p, r.state)) && (r.status != Running ==> r == Run(u, fuel, Died))
            && (!RollbackAllowed(p, t) ==> u == t)
            && (RollbackAllowed(p, t) && !Unblocked(p, u) ==> RunResume(p, u, fuel).status == Died)
  {
    hide Undos, ResumeMoves, ForwardMoves, RunForward, Undoable, Unblocked, Undone, RunMoves, RunUndos, RunResume, Ready, RollbackAllowed, WellFormed;
    var t := Resumes(p, RunForward(p, s, cut).state, resumes);
    RollbackAcceptedExactly(p, s, cut, resumes, fuel);
    if RollbackAllowed(p, t) {
      RollbackExact(p, t, rollbacks, fuel);
      RefusedAsIs(p, Rollbacks(p, t, rollbacks), fuel);
    } else {
      RollbacksRefused(p, t, rollbacks);
    }
  }

  lemma RefusedAsIs(p: Plan, s: State, fuel: nat)
    requires WellFormed(p) && Undoable(p, s)
    ensures RunRollback(p, s, fuel).status == Died ==> RunRollback(p, s, fuel) == Run(s, fuel, Died)
  {
    hide Undos, Undoable, RunUndos, RollbackAllowed, Unblocked;
    RollbackAllowedExactly(p, s);
    RollbackKeeps(p, s, fuel);
  }

  lemma {:induction false} RollbacksRefused(p: Plan, s: State, fuels: seq<nat>)
    requires !RollbackAllowed(p, s)
    ensures Rollbacks(p, s, fuels) == s
    decreases |fuels|
  {
    hide RollbackAllowed;
    if fuels != [] { RollbacksRefused(p, s, fuels[1..]); }
  }

  // ------------------------------------------------------------ what blocks it

  /** A rollback that goes through to its end blocks exactly the files that stand as before the preparation. */
  lemma FinishedBlocks(p: Plan, s: State, fuel: nat)
    requires WellFormed(p) && Undoable(p, s) && RunRollback(p, s, fuel).status == Running
    ensures var t := RunRollback(p, s, fuel).state;
            forall k :: k in Keys(p) ==>
              (Blocked(p, t, k) <==> Look(t.disk, Final(Database(k))) == p.pre(k) && (p.source(k).Some? || p.pre(k).Some?))
  {
    hide Undos, Undoable, Unblocked, RollbackAllowed, RunUndos, Blocked;
    RollbackKeeps(p, s, fuel);
    var t := RunRollback(p, s, fuel).state;
    forall k | k in Keys(p)
      ensures Blocked(p, t, k) <==> Look(t.disk, Final(Database(k))) == p.pre(k) && (p.source(k).Some? || p.pre(k).Some?)
    {
      assert Look(t.disk, Stage) == None by { assert InStage(p, Stage); }
      StageRemovalBlocks(p, t, k);
    }
  }

  /**
   Whatever the preparation has published: if it adds a database file, a rollback that went through but was killed
   before it committed is refused when it is run again, and so is a resume, for ever.
  */
  lemma AddedFileBlocks(p: Plan, s: State, k: Key, fuel: nat, rollbacks: seq<nat>, again: nat)
    requires WellFormed(p) && Undoable(p, s) && Unblocked(p, s) && fuel >= 3 * |Undos(p)|
    requires k in Keys(p) && p.pre(k) == None && p.source(k).Some?
    ensures var t := RunRollback(p, s, fuel).state;
            && Undone(p, t) && Rollbacks(p, t, rollbacks) == t
            && RunRollback(p, t, again) == Run(t, again, Died) && RunResume(p, t, again) == Run(t, again, Died)
  {
    hide Undos, Undoable, Unblocked, RollbackAllowed, ResumeAllowed, RunUndos, Blocked;
    RollbackKeeps(p, s, fuel);
    var t := RunRollback(p, s, fuel).state;
    FinishedBlocks(p, s, fuel);
    assert Blocked(p, t, k);
    NotUnblocked(p, t, k);
    RollbackAllowedExactly(p, t);
    RollbacksRefused(p, t, rollbacks);
  }

  /** What the restoration of a database file depends on. */
  predicate SameFile(s: State, t: State, k: Key) {
    && Look(t.disk, Final(Database(k))) == Look(s.disk, Final(Database(k)))
    && Look(t.disk, Staged(Database(k))) == Look(s.disk, Staged(Database(k)))
    && Look(t.disk, Replica(k)) == Look(s.disk, Replica(k))
    && PostedSame(s, t, k)
  }

  predicate PostedSame(s: State, t: State, k: Key) {
    t.journal.post == s.journal.post && (k in t.journal.restored <==> k in s.journal.restored)
  }

  lemma UndoSpares(p: Plan, start: Journal, s: State, u: Undo, fuel: nat, k: Key)
    requires u.Withdraw? || (u.Restore? && u != Restore(k))
    requires SaneUndo(u)
    ensures SameFile(s, RunUndo(p, start, s, u, fuel).state, k)
  {
    hide UndoDue, Readopts;
  }

  /** The state before move `j` of a rollback that goes through, and the fuel that stops it there. */
  lemma {:induction false} UndosCut(p: Plan, start: Journal, s: State, i: nat, j: nat, fuel: nat, extra: nat, k: Key)
    returns (cut: nat, t: State)
    requires i <= j <= |Undos(p)| && RunUndos(p, start, s, Undos(p)[i..], fuel).status == Running
    requires forall n :: i <= n < j ==> SaneUndo(Undos(p)[n]) && (Undos(p)[n].Withdraw? || (Undos(p)[n].Restore? && Undos(p)[n] != Restore(k)))
    ensures RunUndos(p, start, s, Undos(p)[i..], cut + extra) == RunUndos(p, start, t, Undos(p)[j..], extra)
    ensures SameFile(s, t, k)
    decreases j - i
  {
    hide Undos, RunUndo, SaneUndo;
    cut, t := 0, s;
    if i < j {
      assert Undos(p)[i..][1..] == Undos(p)[i + 1..];
      var r := RunUndo(p, start, s, Undos(p)[i], fuel);
      UndoSpares(p, start, s, Undos(p)[i], fuel, k);
      cut, t := UndosCut(p, start, r.state, i + 1, j, r.fuel, extra, k);
      UndoSpends(p, start, s, Undos(p)[i], fuel, cut + extra);
      cut := cut + (fuel - r.fuel);
    }
  }

  /** Before a database file is restored, only the pointer and other files are. */
  lemma RestoreFirst(p: Plan, k: Key) returns (j: nat)
    requires WellFormed(p) && k in Keys(p)
    ensures j < |Undos(p)| && Undos(p)[j] == Restore(k)
    ensures forall n :: 0 <= n < j ==>
              SaneUndo(Undos(p)[n]) && (Undos(p)[n].Withdraw? || (Undos(p)[n].Restore? && Undos(p)[n] != Restore(k)))
  {
    hide Undos;
    var i :| 0 <= i < |Keys(p)| && Keys(p)[i] == k;
    j := i + 1;
    UndosLength(p);
    UndoAt(p, j);
    forall n | 0 <= n < j
      ensures SaneUndo(Undos(p)[n]) && (Undos(p)[n].Withdraw? || (Undos(p)[n].Restore? && Undos(p)[n] != Restore(k)))
    {
      UndoAt(p, n);
      if Undos(p)[n] == Restore(k) { RestoreOnce(p, n, j); }
    }
  }

  lemma UndosLength(p: Plan)
    ensures |Undos(p)| > 1 + |Keys(p)|
  {
  }

  lemma SameRestore(p: Plan, s: State, t: State, k: Key)
    requires SameFile(s, t, k) && UndoPhase(p, s, Restore(k)) == Todo
    ensures UndoPhase(p, t, Restore(k)) == Todo
  {
  }

  lemma WellFormedKey(p: Plan, k: Key)
    requires WellFormed(p) && k in Keys(p)
    ensures KeyWellFormed(p, k)
  {
  }

  lemma UndoSpends(p: Plan, start: Journal, s: State, u: Undo, fuel: nat, extra: nat)
    requires RunUndo(p, start, s, u, fuel).status == Running
    ensures var r := RunUndo(p, start, s, u, fuel);
            r.fuel <= fuel && RunUndo(p, start, s, u, fuel - r.fuel + extra) == Run(r.state, extra, Running)
  {
    hide UndoDue, Readopts, UndoPossible, UndoEffect;
  }

  lemma Erases(p: Plan, start: Journal, t: State, us: seq<Undo>, k: Key)
    requires us != [] && us[0] == Restore(k) && UndoPhase(p, t, Restore(k)) == Todo && KeyWellFormed(p, k)
    requires p.pre(k) == None && p.source(k).Some? && Look(t.disk, Staged(Database(k))) == None
    ensures Blocked(p, RunUndos(p, start, t, us, 2).state, k)
    ensures RunUndos(p, start, t, us, 2).status == Crashed
    ensures Look(RunUndos(p, start, t, us, 2).state.disk, Final(Database(k))) == None
  {
    assert !Readopts(p, start, t, us[0]);
  }

  /**
   A published file that did not exist before the preparation: a rollback killed right after it removed the file,
   with everything else still to be rolled back, is refused when it is run again, and so is a resume.
  */
  lemma ErasureWindow(p: Plan, s: State, k: Key, again: nat) returns (cut: nat)
    requires WellFormed(p) && Undoable(p, s) && Unblocked(p, s)
    requires k in Keys(p) && p.pre(k) == None && p.source(k).Some?
    requires UndoPhase(p, s, Restore(k)) == Todo && Look(s.disk, Staged(Database(k))) == None
    ensures var t := RunRollback(p, s, cut).state;
            && Look(t.disk, Final(Database(k))) == None && RunRollback(p, s, cut).status == Crashed
            && RunRollback(p, t, again) == Run(t, again, Died) && RunResume(p, t, again) == Run(t, again, Died)
  {
    hide Undos, Undoable, Unblocked, RollbackAllowed, ResumeAllowed, RunUndos, Blocked, UndoPhase, WellFormed;
    var fuel := 3 * |Undos(p)|;
    RollbackKeeps(p, s, fuel);
    RollbackAllowedExactly(p, s);
    assert Undos(p)[0..] == Undos(p);
    var j := RestoreFirst(p, k);
    var t;
    cut, t := UndosCut(p, s.journal, s, 0, j, fuel, 2, k);
    cut := cut + 2;
    SameRestore(p, s, t, k);
    WellFormedKey(p, k);
    Erases(p, s.journal, t, Undos(p)[j..], k);
    var e := RunRollback(p, s, cut).state;
    RollbackKeeps(p, s, cut);
    NotUnblocked(p, e, k);
    RollbackAllowedExactly(p, e);
  }

  /** What a publishing run that went through leaves to be rolled back. */
  lemma PublishedState(p: Plan, s: State, k: Key)
    requires WellFormed(p) && Ready(p, s) && k in Keys(p) && p.pre(k) == None && p.source(k).Some?
    ensures var t := RunForward(p, s, 3 * |ForwardMoves(p)|).state;
            && Complete(p, t) && Undoable(p, t) && Unblocked(p, t)
            && UndoPhase(p, t, Restore(k)) == Todo && Look(t.disk, Staged(Database(k))) == None
  {
    hide ResumeMoves, ForwardMoves, Undoable, Unblocked, RunForward, Ready, UndoPhase, Left, WellFormed, Complete, Resumable;
    ForwardCuts(p, s, 3 * |ForwardMoves(p)|);
    var t := RunForward(p, s, 3 * |ForwardMoves(p)|).state;
    ForwardRestoresNothing(p, s, 3 * |ForwardMoves(p)|);
    CompleteSettled(p, t);
    ResumableUndoable(p, t);
    UpdateInPlan(p, k);
    WellFormedKey(p, k);
    CompleteRestores(p, t, k);
  }

  lemma CompleteSettled(p: Plan, s: State)
    requires Left(p, s) && Complete(p, s)
    ensures Resumable(p, s) && Settled(p, s, ResumeMoves(p))
  {
    hide ResumeMoves, Resumable, StrandedFresh;
    forall k | k in Keys(p) ensures !StrandedFresh(p, s, k) {
      UpdateInPlan(p, k);
      CompleteNotStranded(p, s, k);
    }
  }

  lemma CompleteNotStranded(p: Plan, s: State, k: Key)
    requires Complete(p, s) && Update(k) in ResumeMoves(p)
    ensures !StrandedFresh(p, s, k)
  {
    hide ResumeMoves;
    assert PhaseOf(p, s, Update(k)) == Done;
  }

  lemma CompleteRestores(p: Plan, s: State, k: Key)
    requires Complete(p, s) && Update(k) in ResumeMoves(p) && KeyWellFormed(p, k)
    requires p.pre(k) == None && p.source(k).Some? && s.journal.restored == map[]
    ensures UndoPhase(p, s, Restore(k)) == Todo && Look(s.disk, Staged(Database(k))) == None
  {
    hide ResumeMoves;
    assert PhaseOf(p, s, Update(k)) == Done;
  }

  /** Every preparation that adds a database file, published and then rolled back, can be killed there. */
  lemma ErasureWindowOpens(p: Plan, s: State, k: Key, again: nat) returns (cut: nat)
    requires WellFormed(p) && Ready(p, s) && k in Keys(p) && p.pre(k) == None && p.source(k).Some?
    ensures var published := RunForward(p, s, 3 * |ForwardMoves(p)|).state;
            var t := RunRollback(p, published, cut).state;
            && Complete(p, published) && Look(t.disk, Final(Database(k))) == None
            && RunRollback(p, t, again) == Run(t, again, Died) && RunResume(p, t, again) == Run(t, again, Died)
  {
    hide ResumeMoves, ForwardMoves, Undoable, Unblocked, RunForward, Ready, UndoPhase, Complete, RunRollback, RunResume, WellFormed;
    PublishedState(p, s, k);
    cut := ErasureWindow(p, RunForward(p, s, 3 * |ForwardMoves(p)|).state, k, again);
  }

  lemma NotUnblocked(p: Plan, s: State, k: Key)
    requires k in Keys(p) && Blocked(p, s, k)
    ensures !Unblocked(p, s)
  {
  }

  /** Such a preparation, rolled back from its very start. */
  lemma SomeRollbackBlocks(rollbacks: seq<nat>, again: nat)
    ensures var p := SomePlan();
            var t := RunRollback(p, RunForward(p, SomeState(), 0).state, 3 * |Undos(p)|).state;
            && Undone(p, t) && Rollbacks(p, t, rollbacks) == t
            && RunRollback(p, t, again) == Run(t, again, Died) && RunResume(p, t, again) == Run(t, again, Died)
  {
    hide Undos, Undoable, Unblocked, RollbackAllowed, ResumeAllowed, RunUndos, ResumeMoves, Ready, WellFormed;
    SomePreparation();
    SettledStart();
    AddedFileBlocks(SomePlan(), SomeState(), "newcert", 3 * |Undos(SomePlan())|, rollbacks, again);
  }

  lemma SettledStart()
    ensures RunForward(SomePlan(), SomeState(), 0).state == SomeState()
    ensures Undoable(SomePlan(), SomeState()) && Unblocked(SomePlan(), SomeState())
  {
    hide Undos, Undoable, Unblocked, ResumeMoves, WellFormed, Settled, Resumable;
    SomePreparation();
    ReadyAt(SomePlan(), SomeState());
    BetweenSettled(SomePlan(), SomeState(), Before(SomePlan()));
    ResumableUndoable(SomePlan(), SomeState());
  }
}
