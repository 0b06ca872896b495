/**
 Resumes and rollbacks of a preparation in any order, each refused or killed anywhere: what all of them keep, and
 what the last one reaches. A resume after a rollback goes on as far as it can; what was restored stays restored.
*/
module PreparationHistory {
  import opened Options
  import opened PreparationModel
  import opened PreparationResume
  import opened PreparationForward
  import opened PreparationRollback
  import opened PreparationWindows

  datatype Command = Command(action: Action, fuel: nat)

  function RunCommand(p: Plan, s: State, c: Command): Run {
    match c.action
    case Resume => RunResume(p, s, c.fuel)
    case Rollback => RunRollback(p, s, c.fuel)
  }

  function Replay(p: Plan, s: State, history: seq<Command>): State
    decreases |history|
  {
    if history == [] then s else Replay(p, RunCommand(p, s, history[0]).state, history[1..])
  }

  // --------------------------------------------------------------- invariant

  /** Everything that the pointer refers to. */
  ghost predicate InPlace(p: Plan, s: State) {
    && Look(s.disk, Final(Session)).Some?
    && (forall slot :: Tree(p, slot) ==> Is(Look(s.disk, Final(slot)), p.inode(slot)))
    && (forall side :: side in Sides(p) ==> Is(Look(s.disk, Final(Reservation(side))), p.inode(Reservation(side))))
  }

  /** A rollback has come to the moves after the trees. */
  ghost predicate Withdrawing(p: Plan, s: State) {
    || Look(s.disk, Final(Session)) == None || Look(s.disk, Stage) == None
    || exists side :: side in Sides(p) && Is(Look(s.disk, Final(Reservation(side))), p.abandoned(side))
  }

  ghost predicate AnyGone(p: Plan, s: State) {
    exists slot :: Tree(p, slot) && Gone(p, s, slot)
  }

  ghost predicate AllGone(p: Plan, s: State) {
    forall slot :: Tree(p, slot) ==> Gone(p, s, slot)
  }

  predicate SideFits(p: Plan, s: State, side: Side) {
    && Look(s.disk, Final(Reservation(side))).Some?
    && (Is(Look(s.disk, Final(Reservation(side))), p.reserved(side)) ==>
          Is(Look(s.disk, Staged(Reservation(side))), p.inode(Reservation(side))))
  }

  predicate FileFits(p: Plan, s: State, k: Key) {
    var staged, final := Look(s.disk, Staged(Database(k))), Look(s.disk, Final(Database(k)));
    && (k in s.journal.post ==> staged == None)
    && (k in s.journal.restored || SameState(final, p.replica(k)) ==> k in s.journal.post)
    && (p.source(k).Some? && staged == p.source(k) ==> Look(s.disk, Replica(k)) == p.replica(k))
  }

  /** What relates one object to another. */
  ghost predicate Fits(p: Plan, s: State) {
    && (Look(s.disk, Final(Pointer)).Some? ==> InPlace(p, s))
    && (Withdrawing(p, s) ==> AllGone(p, s))
    && (forall side :: side in Sides(p) ==> SideFits(p, s, side))
    && (forall k :: k in Keys(p) ==> FileFits(p, s, k))
  }

  ghost predicate Steady(p: Plan, s: State) {
    Undoable(p, s) && Fits(p, s) && Aged(p, s)
  }

  /** What a resume leaves behind it. */
  predicate Processed(p: Plan, s: State, m: Move) {
    match m
    case Publish(slot) => Is(Look(s.disk, Final(slot)), p.inode(slot))
    case Reserve(side) => Look(s.disk, Final(Reservation(side))).Some?
    case Update(k) => p.source(k).Some? ==> Look(s.disk, Final(Database(k))) != p.pre(k) && k in s.journal.post
    case Consume(side) => Is(Look(s.disk, Final(Reservation(side))), p.inode(Reservation(side)))
    case Discard => Look(s.disk, Staged(Signing)) == None
  }

  ghost predicate ProcessedBefore(p: Plan, s: State, i: nat) {
    forall j :: 0 <= j < i && j < |ResumeMoves(p)| ==> Processed(p, s, ResumeMoves(p)[j])
  }

  /** A resume was killed between the rename of move `i` and its record. */
  ghost predicate OpenAt(p: Plan, s: State, i: nat) {
    && i < |ResumeMoves(p)| && ResumeMoves(p)[i].Update?
    && var k := ResumeMoves(p)[i].key;
       && p.source(k).Some? && k !in s.journal.post && SameState(Look(s.disk, Final(Database(k))), p.source(k))
       && s.journal.step == At(Resuming, Update(k), false) && s.journal.action == Some(Resume)
       && ProcessedBefore(p, s, i) && Steady(p, Recorded(s, Update(k)))
  }

  /** What every history keeps. */
  ghost predicate Kept(p: Plan, s: State) {
    Steady(p, s) || exists i :: OpenAt(p, s, i)
  }

  // ---------------------------------------------------- rollbacks keep it

  lemma UndoEffectFits(p: Plan, s: State, i: nat)
    requires WellFormed(p) && Whole(p, s) && i < |Undos(p)| && UndoneBefore(p, s, i) && UndoPhase(p, s, Undos(p)[i]) == Todo
    requires Fits(p, s) && Aged(p, s) && UndoPossible(p, s, Undos(p)[i])
    ensures Fits(p, UndoEffect(p, s, Undos(p)[i])) && Aged(p, UndoEffect(p, s, Undos(p)[i]))
  {
    hide Undos, UndoPhase, UndoEffect, UndoPossible, Whole, FileFits, SideFits, InPlace, Aged, InStage;
    var u := Undos(p)[i];
    var t := UndoEffect(p, s, u);
    UndosSane(p, u);
    PointerFits(p, s, i);
    TreesFit(p, s, i);
    forall side | side in Sides(p) ensures SideFits(p, t, side) { SideStays(p, s, u, side); }
    forall k | k in Keys(p) ensures FileFits(p, t, k) { FileStays(p, s, u, k); }
    UndoAges(p, s, u);
  }

  /** After its first move a rollback has no pointer. */
  lemma PointerFits(p: Plan, s: State, i: nat)
    requires i < |Undos(p)| && UndoneBefore(p, s, i) && UndoPossible(p, s, Undos(p)[i]) && SaneUndo(Undos(p)[i])
    ensures Look(UndoEffect(p, s, Undos(p)[i]).disk, Final(Pointer)) == None
  {
    hide Undos, InStage;
    UndoAt(p, i);
    UndoAt(p, 0);
    assert i > 0 ==> UndoPhase(p, s, Undos(p)[0]) == Done;
  }

  lemma TreesBefore(p: Plan, i: nat, j: nat)
    requires i < |Undos(p)| && j < |Undos(p)| && (Undos(p)[i] == DropStage || Late(Undos(p)[i]))
    requires Undos(p)[j].Drop? || (Undos(p)[j] == DropStage && Late(Undos(p)[i]))
    ensures j < i
  {
    hide Undos;
    UndoAt(p, i);
    UndoAt(p, j);
  }

  lemma DropDone(p: Plan, s: State, i: nat, slot: Slot)
    requires i < |Undos(p)| && UndoneBefore(p, s, i) && Tree(p, slot) && (Undos(p)[i] == DropStage || Late(Undos(p)[i]))
    ensures UndoPhase(p, s, Drop(slot)) == Done && (Late(Undos(p)[i]) ==> UndoPhase(p, s, DropStage) == Done)
  {
    hide Undos, UndoPhase, Late;
    FixedUndos(p);
    if slot.Authority? { SideUndos(p, slot.side); }
    var j :| 0 <= j < |Undos(p)| && Undos(p)[j] == Drop(slot);
    TreesBefore(p, i, j);
    var n :| 0 <= n < |Undos(p)| && Undos(p)[n] == DropStage;
    if Late(Undos(p)[i]) { TreesBefore(p, i, n); }
  }

  lemma GoneAfter(p: Plan, s: State, u: Undo, slot: Slot)
    requires UndoPossible(p, s, u) && SaneUndo(u) && Tree(p, slot) && UndoPhase(p, s, Drop(slot)) == Done
    requires u == DropStage || (Late(u) && UndoPhase(p, s, DropStage) == Done && Look(s.disk, Stage) == None)
    ensures Gone(p, UndoEffect(p, s, u), slot)
  {
    assert InStage(p, Stage) && (slot != Rollover ==> InStage(p, Staged(slot)));
  }

  lemma GoneStays(p: Plan, s: State, u: Undo, slot: Slot)
    requires UndoPossible(p, s, u) && SaneUndo(u) && Tree(p, slot) && Gone(p, s, slot)
    ensures Gone(p, UndoEffect(p, s, u), slot)
  {
  }

  lemma StageGone(p: Plan, s: State)
    requires UndoPhase(p, s, DropStage) == Done
    ensures Look(s.disk, Stage) == None
  {
    assert InStage(p, Stage);
  }

  /** Only a move after the trees begins to withdraw. */
  lemma BeginsLate(p: Plan, s: State, u: Undo)
    requires UndoPossible(p, s, u) && SaneUndo(u) && !Withdrawing(p, s) && u != DropStage && !Late(u)
    ensures !Withdrawing(p, UndoEffect(p, s, u))
  {
    hide UndoPhase;
    var t := UndoEffect(p, s, u);
    UndoEffectTouches(p, s, u);
    forall side ensures Look(t.disk, Final(Reservation(side))) == Look(s.disk, Final(Reservation(side))) {
      assert !UndoReaches(p, u, Final(Reservation(side)));
    }
    assert !UndoReaches(p, u, Final(Session)) && SameStage(s, t);
  }

  lemma TreesFit(p: Plan, s: State, i: nat)
    requires i < |Undos(p)| && UndoneBefore(p, s, i) && UndoPossible(p, s, Undos(p)[i]) && SaneUndo(Undos(p)[i])
    requires Withdrawing(p, s) ==> AllGone(p, s)
    ensures Withdrawing(p, UndoEffect(p, s, Undos(p)[i])) ==> AllGone(p, UndoEffect(p, s, Undos(p)[i]))
  {
    hide Undos, UndoPhase, UndoEffect, UndoPossible, Withdrawing, Gone, Late, Tree;
    var u := Undos(p)[i];
    var t := UndoEffect(p, s, u);
    if Withdrawing(p, t) {
      if !Withdrawing(p, s) && u != DropStage && !Late(u) { BeginsLate(p, s, u); }
      forall slot | Tree(p, slot) ensures Gone(p, t, slot) {
        if Withdrawing(p, s) {
          GoneStays(p, s, u, slot);
        } else {
          DropDone(p, s, i, slot);
          if Late(u) { StageGone(p, s); }
          GoneAfter(p, s, u, slot);
        }
      }
    }
  }

  lemma SideStays(p: Plan, s: State, u: Undo, side: Side)
    requires WellFormed(p) && UndoPossible(p, s, u) && SaneUndo(u) && side in Sides(p) && SideFits(p, s, side)
    ensures SideFits(p, UndoEffect(p, s, u), side)
  {
  }

  lemma FileStays(p: Plan, s: State, u: Undo, k: Key)
    requires WellFormed(p) && Whole(p, s) && u in Undos(p) && UndoPhase(p, s, u) == Todo && UndoPossible(p, s, u) && SaneUndo(u)
    requires k in Keys(p) && FileFits(p, s, k)
    ensures FileFits(p, UndoEffect(p, s, u), k)
  {
    hide Undos;
    assert KeyWellFormed(p, k);
  }

  lemma UndoAges(p: Plan, s: State, u: Undo)
    requires WellFormed(p) && Aged(p, s) && UndoPossible(p, s, u) && SaneUndo(u) && (u.Restore? ==> u.key in Keys(p))
    ensures Aged(p, UndoEffect(p, s, u))
  {
    hide InStage;
    if u.Restore? { assert KeyWellFormed(p, u.key); }
  }

  predicate SameObjects(s: State, t: State) {
    t.disk == s.disk && t.journal.post == s.journal.post && t.journal.restored == s.journal.restored && t.clock == s.clock
  }

  lemma SameFits(p: Plan, s: State, t: State)
    requires SameObjects(s, t)
    ensures Fits(p, t) <==> Fits(p, s)
    ensures Aged(p, t) <==> Aged(p, s)
  {
    hide SideFits, FileFits, Young;
    assert forall k :: FileFits(p, t, k) <==> FileFits(p, s, k) by { SameFiles(p, s, t); }
    assert forall side :: SideFits(p, t, side) <==> SideFits(p, s, side) by { SameFiles(p, s, t); }
    assert Young(p, t) <==> Young(p, s) by { SameFiles(p, s, t); }
  }

  lemma SameFiles(p: Plan, s: State, t: State)
    requires SameObjects(s, t)
    ensures forall k :: FileFits(p, t, k) <==> FileFits(p, s, k)
    ensures forall side :: SideFits(p, t, side) <==> SideFits(p, s, side)
    ensures Young(p, t) <==> Young(p, s)
  {
  }

  lemma RerecordFits(p: Plan, s: State, u: Undo)
    requires Fits(p, s) && Aged(p, s) && (u.Restore? ==> u.key in Keys(p))
    requires u.Restore? && p.pre(u.key).Some? ==> SameState(Look(s.disk, Final(Database(u.key))), p.replica(u.key))
    ensures Fits(p, Rerecorded(p, s, u)) && Aged(p, Rerecorded(p, s, u))
  {
    hide InPlace, AllGone;
    var t := Rerecorded(p, s, u);
    assert InPlace(p, s) ==> InPlace(p, t) by { SamePlaces(p, s, t); }
    assert AllGone(p, s) ==> AllGone(p, t) by { SamePlaces(p, s, t); }
    assert Withdrawing(p, t) <==> Withdrawing(p, s);
  }

  lemma SamePlaces(p: Plan, s: State, t: State)
    requires t.disk == s.disk
    ensures InPlace(p, s) ==> InPlace(p, t)
    ensures AllGone(p, s) ==> AllGone(p, t)
  {
  }

  lemma RestoredReplica(p: Plan, s: State, u: Undo)
    requires u.Restore? && p.pre(u.key).Some? && UndoPossible(p, s, u)
    ensures SameState(Look(UndoEffect(p, s, u).disk, Final(Database(u.key))), p.replica(u.key))
  {
  }

  lemma UndoFits(p: Plan, start: Journal, s: State, i: nat, fuel: nat)
    requires WellFormed(p) && i < |Undos(p)| && Rewinding(p, start, s, i) && Fits(p, s) && Aged(p, s)
    ensures var t := RunUndo(p, start, s, Undos(p)[i], fuel).state; Fits(p, t) && Aged(p, t)
  {
    hide Undos, UndoPhase, UndoEffect, UndoPossible, UndoDue, Readopts, SigningAllowed, GoneShows, Fits, Aged, InStage, Rerecorded;
    var u := Undos(p)[i];
    UndosSane(p, u);
    UndoDueExactly(p, start, s, u);
    if Readopts(p, start, s, u) {
      ReadoptsReplica(p, start, s, u);
      RerecordFits(p, s, u);
      SameFits(p, Rerecorded(p, s, u), UndoCheckpoint(Rerecorded(p, s, u), u, true));
    } else if UndoPhase(p, s, u) == Todo {
      PendingUndoable(p, s, i);
      var pending := UndoCheckpoint(s, u, false);
      SameFits(p, s, pending);
      PendingBefore(p, s, i);
      UndoStep(p, pending, i);
      UndoEffectFits(p, pending, i);
      var undone := UndoEffect(p, pending, u);
      if u.Restore? && p.pre(u.key).Some? { RestoredReplica(p, pending, u); }
      RerecordFits(p, undone, u);
      SameFits(p, Rerecorded(p, undone, u), UndoCheckpoint(Rerecorded(p, undone, u), u, true));
    }
  }

  lemma PendingBefore(p: Plan, s: State, i: nat)
    requires i < |Undos(p)| && UndoneBefore(p, s, i)
    requires forall o :: o in Undos(p) ==> UndoPhase(p, UndoCheckpoint(s, Undos(p)[i], false), o) == UndoPhase(p, s, o)
    ensures UndoneBefore(p, UndoCheckpoint(s, Undos(p)[i], false), i)
  {
    hide Undos, UndoPhase;
  }

  lemma ReadoptsReplica(p: Plan, start: Journal, s: State, u: Undo)
    requires Readopts(p, start, s, u)
    ensures u.Restore? && SameState(Look(s.disk, Final(Database(u.key))), p.replica(u.key))
  {
  }

  lemma {:induction false} UndosFit(p: Plan, start: Journal, s: State, i: nat, fuel: nat)
    requires WellFormed(p) && Rewinding(p, start, s, i) && Fits(p, s) && Aged(p, s)
    ensures var t := RunUndos(p, start, s, Undos(p)[i..], fuel).state; Fits(p, t) && Aged(p, t)
    decreases |Undos(p)| - i
  {
    hide Undos, RunUndo, UndoPhase, Whole, ReturnWindow, GoneShows, InStage, Fits, Aged;
    if i < |Undos(p)| {
      UndoFits(p, start, s, i, fuel);
      UndoKeeps(p, start, s, i, fuel);
      var r := RunUndo(p, start, s, Undos(p)[i], fuel);
      assert Undos(p)[i..][1..] == Undos(p)[i + 1..];
      if r.status == Running { UndosFit(p, start, r.state, i + 1, r.fuel); }
    }
  }

  /** A rollback leaves a steady state, and is refused while a rename waits for its record. */
  lemma RollbackSteady(p: Plan, s: State, fuel: nat)
    requires WellFormed(p) && Steady(p, s)
    ensures Steady(p, RunRollback(p, s, fuel).state)
  {
    hide Undos, RunUndos, Undoable, Fits, Aged, RollbackAllowed, Unblocked;
    RollbackKeeps(p, s, fuel);
    if RollbackAllowed(p, s) {
      RewindingAtStart(p, s);
      assert Undos(p)[0..] == Undos(p);
      UndosFit(p, s.journal, s, 0, fuel);
    }
  }

  lemma OpenRefuses(p: Plan, s: State, i: nat)
    requires WellFormed(p) && OpenAt(p, s, i)
    ensures !RollbackAllowed(p, s)
  {
    hide ResumeMoves, Undos, RollbackAllowed, Undoable, Fits;
    var k := ResumeMoves(p)[i].key;
    InPlan(p, ResumeMoves(p)[i]);
    OpenFile(p, s, i);
    FileRefused(p, s, k);
    KeyRefused(p, s, k);
  }

  /** The file of an open window is neither restored nor as it was staged. */
  lemma OpenFile(p: Plan, s: State, i: nat)
    requires WellFormed(p) && OpenAt(p, s, i)
    ensures var k := ResumeMoves(p)[i].key;
            && k in Keys(p) && k !in s.journal.restored && Look(s.disk, Final(Database(k))) != p.source(k)
            && Look(s.disk, Staged(Database(k))) == None && (p.pre(k).Some? ==> Look(s.disk, Replica(k)) == p.replica(k))
  {
    hide ResumeMoves, Undos, InStage, ProcessedBefore;
    var k := ResumeMoves(p)[i].key;
    InPlan(p, ResumeMoves(p)[i]);
    assert KeyWellFormed(p, k);
    RestoreIn(p, k);
    assert UndoPhase(p, Recorded(s, Update(k)), Restore(k)) != Broken;
    assert FileFits(p, Recorded(s, Update(k)), k);
  }

  lemma FileRefused(p: Plan, s: State, k: Key)
    requires WellFormed(p) && k in Keys(p) && k !in s.journal.post && k !in s.journal.restored
    requires SameState(Look(s.disk, Final(Database(k))), p.source(k)) && Look(s.disk, Final(Database(k))) != p.source(k)
    ensures !DatabaseAllowed(p, s, Rollback, k)
  {
    assert KeyWellFormed(p, k);
  }

  // ------------------------------------------------------- resumes keep it

  /** A file that still stands as before has its successor staged. */
  predicate FileReady(p: Plan, s: State, k: Key) {
    Look(s.disk, Final(Database(k))) == p.pre(k) && p.source(k).Some? ==> Look(s.disk, Staged(Database(k))) == p.source(k)
  }

  /** In the middle of a resume, whatever went before it. */
  ghost predicate Going(p: Plan, start: Journal, s: State, i: nat) {
    && i <= |ResumeMoves(p)| && Steady(p, s) && SettledUndos(p, s) && !AnyGone(p, s) && ProcessedBefore(p, s, i)
    && (forall k :: k in Keys(p) ==> FileReady(p, s, k))
    && StartFits(p, start, s)
  }

  /** What the resume loaded as published is still recorded. */
  ghost predicate StartFits(p: Plan, start: Journal, s: State) {
    forall k :: k in Keys(p) && k in start.post ==> k in s.journal.post && SameState(Some(start.post[k]), p.source(k))
  }

  /** A checkpoint of a resume, while no tree is missing and no restoration waits for its record. */
  lemma RestepSteady(p: Plan, s: State, t: State)
    requires Steady(p, s) && SettledUndos(p, s) && !AnyGone(p, s) && SameObjects(s, t) && t.journal.step.At?
    ensures Steady(p, t) && SettledUndos(p, t) && !AnyGone(p, t)
  {
    hide Undos, UndoPhase, Fits, Aged, SigningAllowed, Gone, Tree;
    SameFits(p, s, t);
    forall u ensures UndoPhase(p, t, u) == UndoPhase(p, s, u) { UndoPhaseSame(p, s, t, u); }
    forall slot ensures Gone(p, t, slot) == Gone(p, s, slot) { GoneSame(p, s, t, slot); }
    SigningSame(p, s, t);
    SettledUndoable(p, t);
  }

  lemma UndoPhaseSame(p: Plan, s: State, t: State, u: Undo)
    requires SameObjects(s, t)
    ensures UndoPhase(p, t, u) == UndoPhase(p, s, u)
  {
    hide InStage;
  }

  lemma GoneSame(p: Plan, s: State, t: State, slot: Slot)
    requires t.disk == s.disk
    ensures Gone(p, t, slot) == Gone(p, s, slot)
  {
  }

  lemma RestepGoing(p: Plan, start: Journal, s: State, t: State, i: nat)
    requires Going(p, start, s, i) && SameObjects(s, t) && t.journal.step.At?
    ensures Going(p, start, t, i)
  {
    hide Steady, SettledUndos, AnyGone, ResumeMoves;
    RestepSteady(p, s, t);
    forall m ensures Processed(p, t, m) == Processed(p, s, m) { ProcessedSame(p, s, t, m); }
  }

  lemma ProcessedSame(p: Plan, s: State, t: State, m: Move)
    requires SameObjects(s, t)
    ensures Processed(p, t, m) == Processed(p, s, m)
  {
  }

  /** The phases of the moves of a rollback, named by what they are about. */
  lemma SteadyPhases(p: Plan, s: State)
    requires Steady(p, s)
    ensures UndoPhase(p, s, Withdraw(Pointer)) != Broken && UndoPhase(p, s, Withdraw(Session)) != Broken
    ensures UndoPhase(p, s, Drop(Rollover)) != Broken && UndoPhase(p, s, DropStage) != Broken
    ensures forall side :: side in Sides(p) ==>
              UndoPhase(p, s, Drop(Authority(side))) != Broken && UndoPhase(p, s, Abandon(side)) != Broken
    ensures forall k :: k in Keys(p) ==> UndoPhase(p, s, Restore(k)) != Broken
  {
    hide Undos, UndoPhase, Fits, Aged;
    FixedUndos(p);
    forall side | side in Sides(p) ensures Drop(Authority(side)) in Undos(p) && Abandon(side) in Undos(p) { SideUndos(p, side); }
    forall k | k in Keys(p) ensures Restore(k) in Undos(p) { RestoreIn(p, k); }
  }

  /** While no tree is missing the rollback has not come further than the trees. */
  lemma NotWithdrawing(p: Plan, s: State)
    requires Fits(p, s) && !AnyGone(p, s)
    ensures !Withdrawing(p, s)
  {
    assert Tree(p, Rollover);
  }

  lemma PlanTrees(p: Plan, m: Move)
    requires m in ResumeMoves(p) && m.Publish?
    ensures m.slot in {Session, Pointer} || Tree(p, m.slot)
  {
    hide ResumeMoves;
    MovesSane(p);
    InPlan(p, m);
  }

  lemma IdleProcessed(p: Plan, start: Journal, s: State, i: nat)
    requires WellFormed(p) && Going(p, start, s, i) && i < |ResumeMoves(p)|
    requires !Due(p, start, s, Resuming, ResumeMoves(p)[i])
    ensures Processed(p, s, ResumeMoves(p)[i])
  {
    hide ResumeMoves, Undos, Undoable, SettledUndos, InPlace, AllGone, InStage, Aged, ProcessedBefore;
    var m := ResumeMoves(p)[i];
    InPlan(p, m);
    SteadyPhases(p, s);
    NotWithdrawing(p, s);
    match m
    case Publish(slot) => PlanTrees(p, m); assert Tree(p, slot) ==> !Gone(p, s, slot);
    case Reserve(side) => assert SideFits(p, s, side);
    case Consume(side) => assert SideFits(p, s, side);
    case Update(k) => IdleUpdate(p, start, s, k);
    case Discard =>
  }

  lemma IdleUpdate(p: Plan, start: Journal, s: State, k: Key)
    requires WellFormed(p) && Steady(p, s) && SettledUndos(p, s) && k in Keys(p)
    requires StartFits(p, start, s) && !Due(p, start, s, Resuming, Update(k))
    ensures Processed(p, s, Update(k))
  {
    hide Undos, InPlace, AllGone, InStage, ReturnWindow, GoneShows, ResumeMoves;
    assert KeyWellFormed(p, k);
    RestoreIn(p, k);
    assert UndoPhase(p, s, Restore(k)) != Broken && UndoPhase(p, s, Restore(k)) != Unrecorded;
    assert FileFits(p, s, k);
  }

  /** Adopting a rename that is recorded already changes no record. */
  lemma AdoptedAlready(p: Plan, start: Journal, s: State, i: nat)
    requires WellFormed(p) && Going(p, start, s, i) && i < |ResumeMoves(p)|
    requires Adopts(p, start, s, Resuming, ResumeMoves(p)[i])
    ensures SameObjects(s, Recorded(s, ResumeMoves(p)[i])) && Processed(p, s, ResumeMoves(p)[i])
  {
    hide ResumeMoves, Undos, InPlace, AllGone, InStage, ReturnWindow, GoneShows, ProcessedBefore;
    var m := ResumeMoves(p)[i];
    InPlan(p, m);
    assert KeyWellFormed(p, m.key);
    RestoreIn(p, m.key);
    assert UndoPhase(p, s, Restore(m.key)) != Broken;
    assert s.journal.post[m.key := s.journal.post[m.key]] == s.journal.post;
  }

  lemma DuePossible(p: Plan, start: Journal, s: State, i: nat)
    requires WellFormed(p) && Going(p, start, s, i) && i < |ResumeMoves(p)| && Due(p, start, s, Resuming, ResumeMoves(p)[i])
    ensures var m := ResumeMoves(p)[i];
            && m != Publish(Session) && !m.Reserve?
            && (Possible(p, s, Resuming, m) || (m == Publish(Pointer) && !Is(Look(s.disk, Staged(Pointer)), p.inode(Pointer))))
            && (m.Update? ==> p.source(m.key).Some? && m.key !in s.journal.post)
  {
    hide ResumeMoves, Undos, SettledUndos, InPlace, AllGone, InStage, ProcessedBefore, ReturnWindow, GoneShows;
    var m := ResumeMoves(p)[i];
    InPlan(p, m);
    SteadyPhases(p, s);
    NotWithdrawing(p, s);
    assert m.Reserve? || m.Consume? ==> SideFits(p, s, m.side);
    match m
    case Publish(slot) => PlanTrees(p, m); assert Tree(p, slot) ==> !Gone(p, s, slot);
    case Reserve(side) =>
    case Consume(side) =>
    case Update(k) => assert KeyWellFormed(p, k) && FileFits(p, s, k) && FileReady(p, s, k);
    case Discard => DiscardPossible(p, s, i);
  }

  lemma DiscardPossible(p: Plan, s: State, i: nat)
    requires i < |ResumeMoves(p)| && ResumeMoves(p)[i] == Discard && Whole(p, s)
    ensures SigningAllowed(p, s)
  {
    hide Undos, UndoPhase;
    MovesKind(p, i);
  }

  lemma MovesKind(p: Plan, i: nat)
    requires i < |ResumeMoves(p)| && ResumeMoves(p)[i] == Discard
    ensures p.kind == Intermediate
  {
    hide ResumeMoves;
    PartOf(p, i);
  }

  /** A move of a resume that is due: its effect, and the record of it. */
  function Stepped(p: Plan, s: State, m: Move): State
    requires Possible(p, s, Resuming, m)
  {
    Recorded(Effect(p, s, Resuming, m), m)
  }

  /** What the effect of one due move needs to know. */
  ghost predicate Movable(p: Plan, s: State, m: Move) {
    && WellFormed(p) && m in ResumeMoves(p) && Sane(m) && !m.Reserve? && m != Publish(Session)
    && Steady(p, s) && SettledUndos(p, s) && !AnyGone(p, s) && Possible(p, s, Resuming, m)
    && (m.Update? ==> m.key in Keys(p) && p.source(m.key).Some? && m.key !in s.journal.post)
    && (m.Consume? ==> m.side in Sides(p))
  }

  lemma SteppedUndo(p: Plan, s: State, m: Move, u: Undo)
    requires Movable(p, s, m) && u in Undos(p)
    ensures UndoPhase(p, Stepped(p, s, m), u) in {Todo, Done}
  {
    hide Undos, UndoPhase, Fits, Aged, ResumeMoves, AnyGone, Stepped, WellFormed, ReturnWindow, GoneShows;
    UndosSane(p, u);
    PhaseSettled(p, s, u);
    if u.Restore? {
      SteppedRestore(p, s, m, u.key);
    } else if u == DropStage {
      NotWithdrawing(p, s);
      SteppedStage(p, s, m);
    } else {
      SteppedTree(p, s, m, u);
    }
  }

  lemma SteppedRestore(p: Plan, s: State, m: Move, k: Key)
    requires Movable(p, s, m) && k in Keys(p) && UndoPhase(p, s, Restore(k)) in {Todo, Done}
    ensures UndoPhase(p, Stepped(p, s, m), Restore(k)) in {Todo, Done}
  {
    hide Undos, InStage, Undoable, Aged, ResumeMoves, InPlace, AllGone, AnyGone, SettledUndos;
    assert FileFits(p, s, k) && KeyWellFormed(p, k);
  }

  lemma SteppedStage(p: Plan, s: State, m: Move)
    requires Movable(p, s, m) && UndoPhase(p, s, DropStage) in {Todo, Done} && Look(s.disk, Stage).Some?
    ensures UndoPhase(p, Stepped(p, s, m), DropStage) in {Todo, Done}
  {
    hide Steady, SettledUndos, AnyGone, ResumeMoves, WellFormed;
    StagePresent(p, s);
  }

  lemma SteppedTree(p: Plan, s: State, m: Move, u: Undo)
    requires Movable(p, s, m) && SaneUndo(u) && !u.Restore? && u != DropStage && UndoPhase(p, s, u) in {Todo, Done}
    requires u.Abandon? ==> u.side in Sides(p)
    ensures UndoPhase(p, Stepped(p, s, m), u) in {Todo, Done}
  {
    hide Steady, SettledUndos, AnyGone, ResumeMoves, InStage;
  }

  lemma PhaseSettled(p: Plan, s: State, u: Undo)
    requires Whole(p, s) && SettledUndos(p, s) && u in Undos(p)
    ensures UndoPhase(p, s, u) in {Todo, Done}
  {
    hide Undos, UndoPhase;
  }

  lemma StagePresent(p: Plan, s: State)
    requires UndoPhase(p, s, DropStage) != Broken && Look(s.disk, Stage).Some?
    ensures Is(Look(s.disk, Stage), p.stage)
  {
    assert InStage(p, Stage);
  }

  lemma SteppedPlaces(p: Plan, s: State, m: Move)
    requires Movable(p, s, m)
    ensures var t := Stepped(p, s, m); Look(t.disk, Stage) == Look(s.disk, Stage) && Look(t.disk, Final(Session)) == Look(s.disk, Final(Session))
    ensures var t := Stepped(p, s, m); m != Publish(Pointer) ==> Look(t.disk, Final(Pointer)) == Look(s.disk, Final(Pointer))
    ensures forall side :: Look(Stepped(p, s, m).disk, Final(Reservation(side))) == Look(s.disk, Final(Reservation(side)))
                           || (m == Consume(side) && Is(Look(Stepped(p, s, m).disk, Final(Reservation(side))), p.inode(Reservation(side))))
    ensures forall slot :: Tree(p, slot) && !Gone(p, s, slot) ==> !Gone(p, Stepped(p, s, m), slot)
    ensures forall slot :: Tree(p, slot) && Is(Look(s.disk, Final(slot)), p.inode(slot)) ==> Is(Look(Stepped(p, s, m).disk, Final(slot)), p.inode(slot))
  {
    hide Steady, SettledUndos, AnyGone, ResumeMoves, WellFormed;
  }

  lemma SteppedSide(p: Plan, s: State, m: Move, side: Side)
    requires Movable(p, s, m) && side in Sides(p) && SideFits(p, s, side)
    ensures SideFits(p, Stepped(p, s, m), side)
  {
    hide Steady, SettledUndos, AnyGone, ResumeMoves;
  }

  lemma SteppedFile(p: Plan, s: State, m: Move, k: Key)
    requires Movable(p, s, m) && k in Keys(p) && FileFits(p, s, k)
    ensures FileFits(p, Stepped(p, s, m), k)
  {
    hide Steady, SettledUndos, AnyGone, ResumeMoves;
    assert KeyWellFormed(p, k);
  }

  lemma SteppedRecords(p: Plan, s: State, m: Move)
    requires Movable(p, s, m)
    ensures var t := Stepped(p, s, m);
            && (forall k :: k in Keys(p) && k in t.journal.post ==> SameState(Some(t.journal.post[k]), p.source(k)))
            && t.journal.step == s.journal.step && t.journal.action == s.journal.action && t.journal.restored == s.journal.restored
            && (forall k :: k in s.journal.post ==> k in t.journal.post)
            && (p.kind == Intermediate ==> SigningAllowed(p, t))
  {
    hide Undos, UndoPhase, Fits, Aged, SettledUndos, AnyGone, ResumeMoves, WellFormed, ReturnWindow, GoneShows;
  }

  lemma SteppedAges(p: Plan, s: State, m: Move)
    requires Movable(p, s, m)
    ensures Aged(p, Stepped(p, s, m)) && Aged(p, Effect(p, s, Resuming, m))
  {
    hide Undoable, Fits, SettledUndos, AnyGone, ResumeMoves;
    if m.Update? { assert KeyWellFormed(p, m.key); }
  }

  /** The move itself is processed, and nothing that was is undone. */
  lemma SteppedProcessed(p: Plan, s: State, m: Move, o: Move)
    requires Movable(p, s, m) && Sane(o) && (Processed(p, s, o) || o == m) && (o.Update? ==> o.key in Keys(p))
    ensures Processed(p, Stepped(p, s, m), o)
  {
    hide Steady, SettledUndos, AnyGone, ResumeMoves;
    if o.Update? { assert KeyWellFormed(p, o.key); }
  }

  lemma SteppedReady(p: Plan, s: State, m: Move, k: Key)
    requires Movable(p, s, m) && k in Keys(p) && FileReady(p, s, k)
    requires m == Discard ==> Processed(p, s, Update(k))
    ensures FileReady(p, Stepped(p, s, m), k)
  {
    hide Steady, SettledUndos, AnyGone, ResumeMoves;
    assert KeyWellFormed(p, k);
  }

  lemma SteppedSteady(p: Plan, s: State, m: Move)
    requires Movable(p, s, m) && s.journal.step.At? && (m == Publish(Pointer) ==> InPlace(p, s))
    ensures var t := Stepped(p, s, m); Steady(p, t) && SettledUndos(p, t) && !AnyGone(p, t)
  {
    hide Undos, UndoPhase, Aged, ResumeMoves, Stepped, SigningAllowed, SideFits, FileFits, Gone, Tree, Withdrawing, InPlace, AllGone;
    var t := Stepped(p, s, m);
    SteppedPlaces(p, s, m);
    SteppedRecords(p, s, m);
    SteppedAges(p, s, m);
    forall u | u in Undos(p) ensures UndoPhase(p, t, u) in {Todo, Done} { SteppedUndo(p, s, m, u); }
    NotWithdrawing(p, s);
    SteppedNotWithdrawing(p, s, m);
    if InPlace(p, s) { InPlaceStays(p, s, m); }
    forall side | side in Sides(p) ensures SideFits(p, t, side) { SteppedSide(p, s, m, side); }
    forall k | k in Keys(p) ensures FileFits(p, t, k) { SteppedFile(p, s, m, k); }
    SettledUndoable(p, t);
  }

  lemma SteppedNotWithdrawing(p: Plan, s: State, m: Move)
    requires Movable(p, s, m) && !Withdrawing(p, s)
    ensures !Withdrawing(p, Stepped(p, s, m))
  {
    hide Steady, SettledUndos, AnyGone, ResumeMoves, Stepped, Tree, Gone;
    SteppedPlaces(p, s, m);
  }

  lemma InPlaceStays(p: Plan, s: State, m: Move)
    requires Movable(p, s, m) && InPlace(p, s)
    ensures InPlace(p, Stepped(p, s, m))
  {
    hide Steady, SettledUndos, AnyGone, ResumeMoves, Stepped, Tree, Gone;
    SteppedPlaces(p, s, m);
  }

  /** The pointer comes last, after everything that it refers to. */
  lemma PointerLast(p: Plan, s: State, i: nat)
    requires i < |ResumeMoves(p)| && ResumeMoves(p)[i] == Publish(Pointer) && ProcessedBefore(p, s, i)
    ensures InPlace(p, s)
  {
    hide ResumeMoves;
    FixedMoves(p);
    LastMove(p, i);
    forall m | m in ResumeMoves(p) && m != Publish(Pointer) ensures Processed(p, s, m) {
      var j :| 0 <= j < |ResumeMoves(p)| && ResumeMoves(p)[j] == m;
    }
    forall side | side in Sides(p)
      ensures Processed(p, s, Publish(Authority(side))) && Processed(p, s, Consume(side))
    {
      SideMoves(p, side);
    }
    assert Processed(p, s, Publish(Session)) && Processed(p, s, Publish(Rollover));
  }

  lemma LastMove(p: Plan, i: nat)
    requires i < |ResumeMoves(p)| && ResumeMoves(p)[i] == Publish(Pointer)
    ensures i == |ResumeMoves(p)| - 1
  {
    hide ResumeMoves;
    PartOf(p, i);
  }

  lemma StepGoes(p: Plan, start: Journal, s: State, i: nat)
    requires Going(p, start, s, i) && i < |ResumeMoves(p)| && s.journal.step.At? && Movable(p, s, ResumeMoves(p)[i])
    ensures Going(p, start, Stepped(p, s, ResumeMoves(p)[i]), i + 1)
  {
    hide ResumeMoves, Steady, SettledUndos, AnyGone, Processed, FileReady, Stepped, InPlace;
    var m := ResumeMoves(p)[i];
    var t := Stepped(p, s, m);
    if m == Publish(Pointer) { PointerLast(p, s, i); }
    SteppedSteady(p, s, m);
    SteppedRecords(p, s, m);
    forall j | 0 <= j < i + 1 ensures Processed(p, t, ResumeMoves(p)[j]) {
      MovesInPlan(p, ResumeMoves(p)[j]);
      SteppedProcessed(p, s, m, ResumeMoves(p)[j]);
    }
    forall k | k in Keys(p) ensures FileReady(p, t, k) {
      if m == Discard {
        UpdateInPlan(p, k);
        DiscardLate(p, i, Update(k));
        var j :| 0 <= j < i && ResumeMoves(p)[..i][j] == Update(k);
        assert Processed(p, s, ResumeMoves(p)[j]);
      }
      SteppedReady(p, s, m, k);
    }
  }

  /** Between its rename and its record a database file is the only thing that is open. */
  lemma EffectKept(p: Plan, start: Journal, s: State, i: nat)
    requires Going(p, start, s, i) && i < |ResumeMoves(p)| && Movable(p, s, ResumeMoves(p)[i])
    requires s.journal.step == At(Resuming, ResumeMoves(p)[i], false) && s.journal.action == Some(Resume)
    ensures Kept(p, Effect(p, s, Resuming, ResumeMoves(p)[i]))
  {
    hide ResumeMoves, Steady, SettledUndos, AnyGone, Processed, FileReady, InPlace;
    var m := ResumeMoves(p)[i];
    if m == Publish(Pointer) { PointerLast(p, s, i); }
    SteppedSteady(p, s, m);
    var moved := Effect(p, s, Resuming, m);
    if m.Update? {
      forall j | 0 <= j < i ensures Processed(p, moved, ResumeMoves(p)[j]) {
        if ResumeMoves(p)[j] == m { UpdateOnce(p, i, j); }
        EffectProcessed(p, s, m, ResumeMoves(p)[j]);
      }
      EffectRenames(p, s, m);
      assert OpenAt(p, moved, i);
    }
  }

  lemma EffectProcessed(p: Plan, s: State, m: Move, o: Move)
    requires Movable(p, s, m) && m.Update? && Processed(p, s, o) && o != m && o in ResumeMoves(p)
    ensures Processed(p, Effect(p, s, Resuming, m), o)
  {
    hide Steady, SettledUndos, AnyGone, ResumeMoves, WellFormed;
    MovesInPlan(p, o);
  }

  lemma EffectRenames(p: Plan, s: State, m: Move)
    requires Movable(p, s, m) && m.Update?
    ensures var t := Effect(p, s, Resuming, m);
            && SameState(Look(t.disk, Final(Database(m.key))), p.source(m.key)) && m.key !in t.journal.post && t.journal == s.journal
  {
    hide Steady, SettledUndos, AnyGone, ResumeMoves, WellFormed;
  }

  lemma DueMovable(p: Plan, start: Journal, s: State, i: nat)
    requires WellFormed(p) && Going(p, start, s, i) && i < |ResumeMoves(p)| && Due(p, start, s, Resuming, ResumeMoves(p)[i])
    requires Possible(p, s, Resuming, ResumeMoves(p)[i])
    ensures Movable(p, s, ResumeMoves(p)[i])
  {
    hide ResumeMoves, Due, Possible, Steady, SettledUndos, AnyGone, ProcessedBefore, WellFormed;
    DuePossible(p, start, s, i);
    InPlan(p, ResumeMoves(p)[i]);
    MovesInPlan(p, ResumeMoves(p)[i]);
  }

  lemma GoingKept(p: Plan, start: Journal, s: State, i: nat)
    requires Going(p, start, s, i)
    ensures Kept(p, s)
  {
    hide ResumeMoves, Steady, SettledUndos, AnyGone, ProcessedBefore, OpenAt;
  }

  /** The pointer was withdrawn: it cannot be published again. */
  predicate PointerLost(p: Plan, s: State) {
    Look(s.disk, Final(Pointer)) == None && !Is(Look(s.disk, Staged(Pointer)), p.inode(Pointer))
  }

  /** One move of a resume. It can only fail at the pointer. */
  lemma MoveGoes(p: Plan, start: Journal, s: State, i: nat, fuel: nat)
    requires WellFormed(p) && Going(p, start, s, i) && i < |ResumeMoves(p)|
    ensures var r := RunMove(p, start, s, Resuming, ResumeMoves(p)[i], fuel);
            && Kept(p, r.state) && (fuel >= 3 ==> r.status != Crashed)
            && (r.status == Running ==> Going(p, start, r.state, i + 1) && r.fuel + 3 >= fuel)
            && (r.status == Died ==> ResumeMoves(p)[i] == Publish(Pointer) && PointerLost(p, s))
  {
    hide ResumeMoves, Steady, SettledUndos, AnyGone, ProcessedBefore, StartFits, FileReady, Due, Possible, Effect, Recorded, Adopts, WellFormed, Kept, Stepped, Going;
    var m := ResumeMoves(p)[i];
    GoingKept(p, start, s, i);
    if Adopts(p, start, s, Resuming, m) {
      AdoptedAlready(p, start, s, i);
      var t := Checkpoint(Recorded(s, m), Resuming, m, true);
      ProcessedGoes(p, start, s, i);
      RestepGoing(p, start, s, t, i + 1);
      GoingKept(p, start, t, i + 1);
    } else if !Due(p, start, s, Resuming, m) {
      IdleProcessed(p, start, s, i);
      ProcessedGoes(p, start, s, i);
    } else {
      var pending := Checkpoint(s, Resuming, m, false);
      RestepGoing(p, start, s, pending, i);
      GoingKept(p, start, pending, i);
      DueSame(p, start, s, pending, m);
      DuePossible(p, start, pending, i);
      if Possible(p, pending, Resuming, m) {
        DueMovable(p, start, pending, i);
        EffectKept(p, start, pending, i);
        StepGoes(p, start, pending, i);
        var t := Checkpoint(Stepped(p, pending, m), Resuming, m, true);
        RestepGoing(p, start, Stepped(p, pending, m), t, i + 1);
        GoingKept(p, start, t, i + 1);
        SteppedIs(p, pending, m);
      } else {
        LostSame(p, start, s, m);
      }
    }
  }

  lemma SteppedIs(p: Plan, s: State, m: Move)
    requires Possible(p, s, Resuming, m)
    ensures Stepped(p, s, m) == Recorded(Effect(p, s, Resuming, m), m)
  {
  }

  lemma DueSame(p: Plan, start: Journal, s: State, t: State, m: Move)
    requires t.disk == s.disk
    ensures Due(p, start, t, Resuming, m) == Due(p, start, s, Resuming, m)
  {
  }

  lemma LostSame(p: Plan, start: Journal, s: State, m: Move)
    requires m == Publish(Pointer) && Due(p, start, s, Resuming, m)
    requires !Is(Look(s.disk, Staged(Pointer)), p.inode(Pointer))
    ensures PointerLost(p, s)
  {
  }

  lemma ProcessedGoes(p: Plan, start: Journal, s: State, i: nat)
    requires Going(p, start, s, i) && i < |ResumeMoves(p)| && Processed(p, s, ResumeMoves(p)[i])
    ensures Going(p, start, s, i + 1)
  {
    hide ResumeMoves, Steady, SettledUndos, AnyGone, StartFits, FileReady, Processed;
  }

  /** What a resume does not touch: the pointer until its last move, and files that a rollback restored. */
  predicate Spared(p: Plan, s: State, t: State, k: Key) {
    var before, after := Look(s.disk, Final(Database(k))), Look(t.disk, Final(Database(k)));
    (SameState(before, p.replica(k)) <==> SameState(after, p.replica(k))) && (SameState(before, p.replica(k)) ==> after == before)
  }

  lemma MoveSpares(p: Plan, start: Journal, s: State, m: Move, fuel: nat, k: Key)
    requires Sane(m) && KeyWellFormed(p, k)
    ensures Spared(p, s, RunMove(p, start, s, Resuming, m, fuel).state, k)
  {
    hide Due, Adopts;
  }

  lemma {:induction false} MovesSpare(p: Plan, start: Journal, s: State, ms: seq<Move>, fuel: nat, k: Key)
    requires KeyWellFormed(p, k) && forall m :: m in ms ==> Sane(m)
    ensures Spared(p, s, RunMoves(p, start, s, Resuming, ms, fuel).state, k)
    decreases |ms|
  {
    hide RunMove, Sane, KeyWellFormed;
    if ms != [] {
      MoveSpares(p, start, s, ms[0], fuel, k);
      var r := RunMove(p, start, s, Resuming, ms[0], fuel);
      MovesSpare(p, start, r.state, ms[1..], r.fuel, k);
    }
  }

  lemma PointerSpared(p: Plan, start: Journal, s: State, m: Move, fuel: nat)
    requires Sane(m)
    ensures m != Publish(Pointer) ==> PointerLost(p, RunMove(p, start, s, Resuming, m, fuel).state) == PointerLost(p, s)
    ensures m == Publish(Pointer) && PointerLost(p, s) ==> RunMove(p, start, s, Resuming, m, fuel).status != Running
  {
    hide Adopts;
    NotAdopted(p, start, s, m);
  }

  lemma NotAdopted(p: Plan, start: Journal, s: State, m: Move)
    ensures !m.Update? ==> !Adopts(p, start, s, Resuming, m)
  {
  }

  /** A resume from its move `i` on: it goes through unless it is killed or the pointer was withdrawn. */
  lemma {:induction false} MovesGo(p: Plan, start: Journal, s: State, i: nat, fuel: nat)
    requires WellFormed(p) && Going(p, start, s, i)
    ensures var r := RunMoves(p, start, s, Resuming, ResumeMoves(p)[i..], fuel);
            && Kept(p, r.state)
            && (r.status == Running ==> Going(p, start, r.state, |ResumeMoves(p)|))
            && (r.status == Died ==> PointerLost(p, s))
            && (fuel >= 3 * (|ResumeMoves(p)| - i) ==> r.status != Crashed)
            && (i < |ResumeMoves(p)| && PointerLost(p, s) ==> r.status != Running)
    decreases |ResumeMoves(p)| - i
  {
    hide ResumeMoves, RunMove, Going, Kept, PointerLost;
    GoingKept(p, start, s, i);
    assert i <= |ResumeMoves(p)| by { GoingBound(p, start, s, i); }
    if i < |ResumeMoves(p)| {
      var m := ResumeMoves(p)[i];
      MoveGoes(p, start, s, i, fuel);
      MovesInPlan(p, m);
      PointerSpared(p, start, s, m, fuel);
      assert ResumeMoves(p)[i..][1..] == ResumeMoves(p)[i + 1..];
      PointerIsLast(p, i);
      var r := RunMove(p, start, s, Resuming, m, fuel);
      if r.status == Running { MovesGo(p, start, r.state, i + 1, r.fuel); }
    }
  }

  lemma GoingBound(p: Plan, start: Journal, s: State, i: nat)
    requires Going(p, start, s, i)
    ensures i <= |ResumeMoves(p)|
  {
    hide ResumeMoves;
  }

  lemma PointerIsLast(p: Plan, i: nat)
    requires i < |ResumeMoves(p)|
    ensures ResumeMoves(p)[i] == Publish(Pointer) <==> i == |ResumeMoves(p)| - 1
  {
    if ResumeMoves(p)[i] == Publish(Pointer) { LastMove(p, i); }
  }

  // ---------------------------------------------------------------- a resume

  lemma GoingAtStart(p: Plan, s: State)
    requires WellFormed(p) && Steady(p, s) && ResumeAllowed(p, s)
    ensures Going(p, s.journal, s, 0)
  {
    hide ResumeMoves, Undos, Fits, Aged, InStage, DatabaseAllowed, UndoPhase;
    forall k | k in Keys(p) ensures FileReady(p, s, k) && UndoPhase(p, s, Restore(k)) != Unrecorded {
      AllowedFile(p, s, k);
    }
    forall u | u in Undos(p) ensures UndoPhase(p, s, u) != Unrecorded {
      UndosSane(p, u);
      if !u.Restore? { OnlyRestoresWait(p, s, u); }
    }
    forall slot | Tree(p, slot) ensures !Gone(p, s, slot) { assert slot == Rollover || Located(p, s, Authority(slot.side)); }
  }

  lemma OnlyRestoresWait(p: Plan, s: State, u: Undo)
    requires !u.Restore?
    ensures UndoPhase(p, s, u) != Unrecorded
  {
    hide InStage;
  }

  lemma AllowedFile(p: Plan, s: State, k: Key)
    requires WellFormed(p) && Steady(p, s) && k in Keys(p) && DatabaseAllowed(p, s, Resume, k)
    ensures FileReady(p, s, k) && UndoPhase(p, s, Restore(k)) != Unrecorded
  {
    hide Undos, InStage, UndoPhase, ReturnWindow, GoneShows, InPlace, AllGone;
    RecordFits(p, s, k);
    assert FileFits(p, s, k);
    FileSettled(p, s, k);
  }

  lemma FileSettled(p: Plan, s: State, k: Key)
    requires WellFormed(p) && k in Keys(p) && DatabaseAllowed(p, s, Resume, k) && FileFits(p, s, k) && Aged(p, s)
    requires k in s.journal.post ==> SameState(Some(s.journal.post[k]), p.source(k))
    ensures FileReady(p, s, k) && UndoPhase(p, s, Restore(k)) != Unrecorded
  {
    hide InStage;
    assert KeyWellFormed(p, k);
  }

  lemma RecordFits(p: Plan, s: State, k: Key)
    requires Whole(p, s) && k in Keys(p)
    ensures k in s.journal.post ==> SameState(Some(s.journal.post[k]), p.source(k))
  {
    hide Undos, UndoPhase;
  }

  /** A resume from a steady state. */
  lemma SteadyResume(p: Plan, s: State, fuel: nat)
    requires WellFormed(p) && Steady(p, s) && ResumeAllowed(p, s)
    ensures var r := RunResume(p, s, fuel);
            && Kept(p, r.state)
            && (r.status == Running ==> Going(p, s.journal, r.state, |ResumeMoves(p)|))
            && (r.status == Died ==> PointerLost(p, s)) && (PointerLost(p, s) ==> r.status != Running)
            && (fuel >= 3 * |ResumeMoves(p)| ==> r.status != Crashed)
  {
    hide ResumeMoves, Steady, ResumeAllowed, Going, Kept, PointerLost;
    GoingAtStart(p, s);
    assert ResumeMoves(p)[0..] == ResumeMoves(p);
    assert |ResumeMoves(p)| > 0 by { FixedMoves(p); }
    MovesGo(p, s.journal, s, 0, fuel);
  }

  // ------------------------------------------------------- an open window

  lemma OpenIdle(p: Plan, s: State, i: nat, j: nat)
    requires WellFormed(p) && OpenAt(p, s, i) && j < i
    ensures !Due(p, s.journal, s, Resuming, ResumeMoves(p)[j]) && !Adopts(p, s.journal, s, Resuming, ResumeMoves(p)[j])
  {
    hide ResumeMoves, Undos, Undoable, Aged, InPlace, AllGone;
    var m := ResumeMoves(p)[j];
    var k := ResumeMoves(p)[i].key;
    InPlan(p, m);
    assert Processed(p, s, m);
    if m == Update(k) { UpdateOnce(p, i, j); }
    match m
    case Publish(slot) => PlanTrees(p, m); if Tree(p, slot) { OpenTree(p, s, i, slot); }
    case Consume(side) => assert Distinct(p.reserved(side), p.inode(Reservation(side)), p.abandoned(side));
    case Update(x) => OpenUpdate(p, s, i, x);
    case Reserve(side) =>
    case Discard =>
  }

  lemma OpenTree(p: Plan, s: State, i: nat, slot: Slot)
    requires OpenAt(p, s, i) && Tree(p, slot) && Is(Look(s.disk, Final(slot)), p.inode(slot))
    ensures Look(s.disk, Staged(slot)) == None
  {
    hide ResumeMoves, Undos, Fits, Aged, InStage, ProcessedBefore;
    FixedUndos(p);
    if slot.Authority? { SideUndos(p, slot.side); }
    assert UndoPhase(p, Recorded(s, Update(ResumeMoves(p)[i].key)), Drop(slot)) != Broken;
  }

  lemma OpenUpdate(p: Plan, s: State, i: nat, x: Key)
    requires WellFormed(p) && OpenAt(p, s, i) && x in Keys(p) && ResumeMoves(p)[i] != Update(x) && Processed(p, s, Update(x))
    ensures !Due(p, s.journal, s, Resuming, Update(x)) && !Adopts(p, s.journal, s, Resuming, Update(x))
  {
    hide ResumeMoves, Undos, Fits, Aged, ProcessedBefore, ReturnWindow, GoneShows;
    RecordFits(p, Recorded(s, Update(ResumeMoves(p)[i].key)), x);
  }

  /** Up to the open file a resume has nothing to do. */
  lemma {:induction false} OpenPasses(p: Plan, s: State, i: nat, j: nat, fuel: nat)
    requires WellFormed(p) && OpenAt(p, s, i) && j <= i
    ensures RunMoves(p, s.journal, s, Resuming, ResumeMoves(p)[j..], fuel) == RunMoves(p, s.journal, s, Resuming, ResumeMoves(p)[i..], fuel)
    decreases i - j
  {
    hide ResumeMoves, OpenAt, Due, Adopts;
    if j < i {
      OpenBound(p, s, i);
      OpenIdle(p, s, i, j);
      assert ResumeMoves(p)[j..][1..] == ResumeMoves(p)[j + 1..];
      OpenPasses(p, s, i, j + 1, fuel);
    }
  }

  lemma OpenBound(p: Plan, s: State, i: nat)
    requires OpenAt(p, s, i)
    ensures i < |ResumeMoves(p)|
  {
    hide ResumeMoves;
  }

  /** Recording the open file settles everything. */
  lemma OpenSettles(p: Plan, s: State, i: nat)
    requires WellFormed(p) && OpenAt(p, s, i) && ResumeAllowed(p, s)
    ensures Adopts(p, s.journal, s, Resuming, ResumeMoves(p)[i])
    ensures Going(p, s.journal, Checkpoint(Recorded(s, ResumeMoves(p)[i]), Resuming, ResumeMoves(p)[i], true), i + 1)
  {
    hide ResumeMoves, Undos, Fits, Aged, UndoPhase, DatabaseAllowed, Located, FileReady, SigningAllowed, Gone, Tree;
    var m := ResumeMoves(p)[i];
    var recorded := Recorded(s, m);
    var t := Checkpoint(recorded, Resuming, m, true);
    assert SettledUndos(p, recorded);
    assert !AnyGone(p, recorded);
    RestepSteady(p, recorded, t);
    forall j | 0 <= j < i + 1 ensures Processed(p, t, ResumeMoves(p)[j]) {
      if j < i { assert Processed(p, s, ResumeMoves(p)[j]); } else { OpenFile(p, s, i); OpenProcessed(p, s, i); }
      RecordedProcessed(p, s, m, ResumeMoves(p)[j]);
    }
    forall k | k in Keys(p) ensures FileReady(p, t, k) {
      ReadyFile(p, s, t, k);
    }
    OpenStart(p, s, i, t);
  }

  lemma ReadyFile(p: Plan, s: State, t: State, k: Key)
    requires k in Keys(p) && DatabaseAllowed(p, s, Resume, k) && t.disk == s.disk
    ensures FileReady(p, t, k)
  {
  }

  lemma OpenStart(p: Plan, s: State, i: nat, t: State)
    requires OpenAt(p, s, i) && t.journal.post == Recorded(s, ResumeMoves(p)[i]).journal.post
    ensures StartFits(p, s.journal, t)
  {
    hide ResumeMoves, Undos, UndoPhase, Fits, Aged, ReturnWindow, GoneShows, ProcessedBefore;
  }

  lemma OpenProcessed(p: Plan, s: State, i: nat)
    requires WellFormed(p) && OpenAt(p, s, i) && ResumeMoves(p)[i].key in Keys(p)
    ensures Processed(p, Recorded(s, ResumeMoves(p)[i]), ResumeMoves(p)[i])
  {
    hide ResumeMoves, Steady, ProcessedBefore;
    assert KeyWellFormed(p, ResumeMoves(p)[i].key);
  }

  lemma RecordedProcessed(p: Plan, s: State, m: Move, o: Move)
    requires Processed(p, s, o) || Processed(p, Recorded(s, m), o)
    ensures Processed(p, Checkpoint(Recorded(s, m), Resuming, m, true), o)
  {
  }

  lemma OpenResume(p: Plan, s: State, i: nat, fuel: nat)
    requires WellFormed(p) && OpenAt(p, s, i) && ResumeAllowed(p, s)
    ensures var r := RunResume(p, s, fuel);
            && Kept(p, r.state)
            && (r.status == Running ==> Going(p, s.journal, r.state, |ResumeMoves(p)|))
            && (r.status == Died ==> PointerLost(p, s)) && (PointerLost(p, s) ==> r.status != Running)
            && (fuel >= 3 * |ResumeMoves(p)| ==> r.status != Crashed)
  {
    hide ResumeMoves, ResumeAllowed, Going, PointerLost, OpenAt, Steady, Adopts;
    OpenBound(p, s, i);
    OpenPasses(p, s, i, 0, fuel);
    assert ResumeMoves(p)[0..] == ResumeMoves(p);
    OpenSettles(p, s, i);
    var m := ResumeMoves(p)[i];
    assert ResumeMoves(p)[i..][1..] == ResumeMoves(p)[i + 1..];
    if fuel > 0 {
      var t := Checkpoint(Recorded(s, m), Resuming, m, true);
      MovesGo(p, s.journal, t, i + 1, fuel - 1);
      OpenNotLast(p, s, i);
      SamePointer(p, s, t);
    }
  }

  lemma OpenNotLast(p: Plan, s: State, i: nat)
    requires OpenAt(p, s, i)
    ensures i + 1 < |ResumeMoves(p)|
  {
    hide ResumeMoves, Steady, ProcessedBefore;
    PointerIsLast(p, i);
  }

  lemma SamePointer(p: Plan, s: State, t: State)
    requires t.disk == s.disk
    ensures PointerLost(p, t) == PointerLost(p, s)
  {
  }

  // ---------------------------------------------------------------- histories

  lemma CommandKeeps(p: Plan, s: State, c: Command)
    requires WellFormed(p) && Kept(p, s)
    ensures Kept(p, RunCommand(p, s, c).state)
  {
    hide Steady, OpenAt, ResumeAllowed, RollbackAllowed, Going, PointerLost, RunMoves, RunUndos;
    match c.action {
      case Resume =>
        if ResumeAllowed(p, s) {
          if Steady(p, s) { SteadyResume(p, s, c.fuel); } else { var i :| OpenAt(p, s, i); OpenResume(p, s, i, c.fuel); }
        }
      case Rollback =>
        if Steady(p, s) { RollbackSteady(p, s, c.fuel); } else { var i :| OpenAt(p, s, i); OpenRefuses(p, s, i); }
    }
  }

  lemma {:induction false} ReplayKeeps(p: Plan, s: State, history: seq<Command>)
    requires WellFormed(p) && Kept(p, s)
    ensures Kept(p, Replay(p, s, history))
    decreases |history|
  {
    hide Kept, RunCommand;
    if history != [] {
      CommandKeeps(p, s, history[0]);
      ReplayKeeps(p, RunCommand(p, s, history[0]).state, history[1..]);
    }
  }

  // ------------------------------------------------------- where they start

  lemma ForwardFits(p: Plan, s: State, i: nat)
    requires WellFormed(p) && ForwardAt(p, s, i) && Aged(p, s)
    ensures Fits(p, s)
  {
    hide ResumeMoves, Undos, Young, InPlace, AllGone, Evidence, PhaseOf;
    ForwardPlaces(p, s, i);
    forall side | side in Sides(p) ensures SideFits(p, s, side) { ForwardSide(p, s, side); }
    forall k | k in Keys(p) ensures FileFits(p, s, k) { ForwardFile(p, s, k); }
  }

  /** Either the pointer is still to be published, or everything is done. */
  lemma ForwardPlaces(p: Plan, s: State, i: nat)
    requires WellFormed(p) && ForwardAt(p, s, i)
    ensures Look(s.disk, Final(Pointer)).Some? ==> InPlace(p, s)
    ensures !Withdrawing(p, s)
  {
    hide ResumeMoves, Young;
    var ms := ResumeMoves(p);
    FixedMoves(p);
    assert ms[0] == Publish(Session) by { PartOf(p, 0); }
    assert PhaseOf(p, s, ms[0]) == Done;
    forall side | side in Sides(p)
      ensures Consume(side) in ms && Publish(Authority(side)) in ms && PhaseOf(p, s, Consume(side)) != Broken
    {
      SideMoves(p, side);
    }
    if i < |ms| { PointerAhead(p, s, i); }
  }

  lemma ForwardSide(p: Plan, s: State, side: Side)
    requires WellFormed(p) && Sound(p, s, ResumeMoves(p)) && side in Sides(p)
    ensures SideFits(p, s, side)
  {
    hide ResumeMoves;
    SideMoves(p, side);
    assert PhaseOf(p, s, Consume(side)) != Broken;
  }

  lemma ForwardFile(p: Plan, s: State, k: Key)
    requires WellFormed(p) && Sound(p, s, ResumeMoves(p)) && s.journal.restored == map[] && k in Keys(p)
    ensures FileFits(p, s, k)
  {
    hide ResumeMoves;
    UpdateInPlan(p, k);
    assert PhaseOf(p, s, Update(k)) != Broken;
    assert KeyWellFormed(p, k);
  }

  lemma ForwardSteady(p: Plan, s: State, i: nat)
    requires WellFormed(p) && ForwardAt(p, s, i) && Aged(p, s)
    ensures Steady(p, s) && Unblocked(p, s)
  {
    hide ResumeMoves, Undos, Undoable, Unblocked, Fits, Aged, Settled, Resumable, Young, Evidence, PhaseOf;
    ForwardFits(p, s, i);
    BetweenSettled(p, s, i);
    ResumableUndoable(p, s);
  }

  /** What a kill of the publishing run leaves: a steady state, or a stranded file. */
  lemma KilledSteady(p: Plan, s: State, cut: nat)
    requires WellFormed(p) && Ready(p, s)
    ensures var t := RunForward(p, s, cut).state;
            Aged(p, t) && (!Cut(p, t) ==> Steady(p, t) && Unblocked(p, t))
  {
    hide ResumeMoves, ForwardMoves, RunForward, Steady, Unblocked, Ready, Cut, ForwardAt, StrandedFresh, Aged, Resumable, Settled, WellFormed;
    ReadyAged(p, s);
    ForwardAges(p, s, cut);
    ForwardCuts(p, s, cut);
    var t := RunForward(p, s, cut).state;
    if !Cut(p, t) {
      var i := UncutAt(p, t);
      ForwardSteady(p, t, i);
    }
  }

  lemma UncutAt(p: Plan, s: State) returns (i: nat)
    requires Left(p, s) && !Cut(p, s)
    ensures ForwardAt(p, s, i)
  {
    hide Resumable, Stranded, ForwardAt, Settled;
    forall k | k in Keys(p) ensures !StrandedFresh(p, s, k) { }
    i :| ForwardAt(p, s, i);
  }

  lemma {:induction false} RefusedStays(p: Plan, s: State, history: seq<Command>)
    requires !ResumeAllowed(p, s) && !RollbackAllowed(p, s)
    ensures Replay(p, s, history) == s
    decreases |history|
  {
    hide ResumeAllowed, RollbackAllowed;
    if history != [] { RefusedStays(p, s, history[1..]); }
  }

  /** Over every history: a stranded preparation stays as it is, any other one keeps the invariant. */
  lemma HistoryKeeps(p: Plan, s: State, cut: nat, history: seq<Command>)
    requires WellFormed(p) && Ready(p, s)
    ensures var killed := RunForward(p, s, cut).state;
            var t := Replay(p, killed, history);
            if Cut(p, killed) then t == killed && exists k :: k in Keys(p) && StrandedFresh(p, t, k) else Kept(p, t)
  {
    hide ResumeMoves, RunForward, Steady, Unblocked, Ready, Cut, Kept, Replay, ResumeAllowed, RollbackAllowed, DatabaseAllowed, StrandedFresh, Resumable, Left, WellFormed;
    var killed := RunForward(p, s, cut).state;
    KilledSteady(p, s, cut);
    if Cut(p, killed) {
      ForwardCuts(p, s, cut);
      var k := CutStrands(p, killed);
      StrandedRefused(p, killed, k, Rollback);
      KeyRefused(p, killed, k);
      RefusedStays(p, killed, history);
    } else {
      SteadyKept(p, killed);
      ReplayKeeps(p, killed, history);
    }
  }

  lemma SteadyKept(p: Plan, s: State)
    requires Steady(p, s)
    ensures Kept(p, s)
  {
    hide Steady, OpenAt;
  }

  // ----------------------------------------------------------------- safety

  lemma KeptPlaces(p: Plan, s: State)
    requires Kept(p, s)
    ensures Look(s.disk, Final(Pointer)).Some? ==> InPlace(p, s) && Is(Look(s.disk, Final(Pointer)), p.inode(Pointer))
  {
    hide ResumeMoves, Undoable, Aged, InPlace, Withdrawing, AllGone, FileFits, SideFits, ProcessedBefore;
    if !Steady(p, s) {
      var i: nat :| OpenAt(p, s, i);
      OpenBound(p, s, i);
      var t := Recorded(s, Update(ResumeMoves(p)[i].key));
      InPlaceSame(p, t, s);
      PointerIs(p, t);
    } else {
      PointerIs(p, s);
    }
  }

  lemma PointerIs(p: Plan, s: State)
    requires Steady(p, s)
    ensures Look(s.disk, Final(Pointer)).Some? ==> Is(Look(s.disk, Final(Pointer)), p.inode(Pointer))
  {
    hide Undos, Undoable, Fits, Aged, InStage;
    SteadyPhases(p, s);
  }

  lemma InPlaceSame(p: Plan, s: State, t: State)
    requires t.disk == s.disk
    ensures InPlace(p, s) ==> InPlace(p, t)
  {
  }

  /**
   Over every history of resumes and rollbacks in any order: the pointer is present only while every tree it refers
   to is published, every reservation is consumed and the backup session is there.
  */
  lemma PointerOnlyWhenInPlace(p: Plan, s: State, cut: nat, history: seq<Command>)
    requires WellFormed(p) && Ready(p, s)
    ensures var t := Replay(p, RunForward(p, s, cut).state, history);
            Look(t.disk, Final(Pointer)).Some? ==> InPlace(p, t) && Is(Look(t.disk, Final(Pointer)), p.inode(Pointer))
  {
    hide ResumeMoves, RunForward, Ready, Cut, Kept, Replay, WellFormed, InPlace;
    HistoryKeeps(p, s, cut, history);
    if !Cut(p, RunForward(p, s, cut).state) { KeptPlaces(p, Replay(p, RunForward(p, s, cut).state, history)); }
  }

  /** The original of a database file: in its place, put back in its place, or copied in the stage. */
  predicate FileKept(p: Plan, s: State, k: Key) {
    var final := Look(s.disk, Final(Database(k)));
    p.pre(k).Some? ==> final == p.pre(k) || SameState(final, p.replica(k)) || Look(s.disk, Replica(k)) == p.replica(k)
  }

  lemma KeptFiles(p: Plan, s: State, k: Key)
    requires WellFormed(p) && Kept(p, s) && k in Keys(p)
    ensures FileKept(p, s, k)
  {
    hide ResumeMoves, Undos, UndoPhase, Fits, Aged, ProcessedBefore;
    RestoreIn(p, k);
    if Steady(p, s) {
      FilePhaseKept(p, s, k);
    } else {
      var i: nat :| OpenAt(p, s, i);
      OpenBound(p, s, i);
      FilePhaseKept(p, Recorded(s, Update(ResumeMoves(p)[i].key)), k);
    }
  }

  lemma FilePhaseKept(p: Plan, s: State, k: Key)
    requires WellFormed(p) && k in Keys(p) && Undoable(p, s) && Restore(k) in Undos(p)
    ensures FileKept(p, s, k)
  {
    hide Undos, InStage, ReturnWindow, GoneShows;
    assert KeyWellFormed(p, k);
    assert UndoPhase(p, s, Restore(k)) != Broken;
  }

  /** Over every history no original of a database file is lost. */
  lemma NothingIsLost(p: Plan, s: State, cut: nat, history: seq<Command>)
    requires WellFormed(p) && Ready(p, s)
    ensures var t := Replay(p, RunForward(p, s, cut).state, history);
            forall k :: k in Keys(p) ==> FileKept(p, t, k)
  {
    hide ResumeMoves, RunForward, Ready, Cut, Kept, Replay, FileKept;
    HistoryKeeps(p, s, cut, history);
    var t := Replay(p, RunForward(p, s, cut).state, history);
    forall k | k in Keys(p) ensures FileKept(p, t, k) {
      if Cut(p, RunForward(p, s, cut).state) { StrandedKept(p, t, k); } else { KeptFiles(p, t, k); }
    }
  }

  lemma StrandedKept(p: Plan, s: State, k: Key)
    requires k in Keys(p) && exists x :: x in Keys(p) && StrandedFresh(p, s, x)
    ensures FileKept(p, s, k)
  {
  }
}
