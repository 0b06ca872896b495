/**
 Rolling a preparation back. A rollback that is killed can be run again exactly while every root
 database file still has the evidence that the first checks ask for.
*/
module PreparationRollback {
  import opened Options
  import opened PreparationModel
  import opened PreparationResume
  import opened PreparationForward

  // ------------------------------------------------------------------ program

  function Restores(keys: seq<Key>): (us: seq<Undo>)
    ensures |us| == |keys| && forall i :: 0 <= i < |keys| ==> us[i] == Restore(keys[i])
  {
    if keys == [] then [] else [Restore(keys[0])] + Restores(keys[1..])
  }

  function Drops(p: Plan): seq<Undo> {
    if p.kind == Root then [Drop(Authority(Intermediate)), Drop(Authority(Root))] else [Drop(Authority(Intermediate))]
  }

  function Abandons(p: Plan): seq<Undo> {
    if p.kind == Root then [Abandon(Intermediate), Abandon(Root)] else [Abandon(Intermediate)]
  }

  function Undos(p: Plan): seq<Undo> {
    [Withdraw(Pointer)] + Restores(Keys(p)) + Drops(p) + [Drop(Rollover), DropStage] + Abandons(p) + [Withdraw(Session)]
  }

  /** Whether the run carries the move out. A rollback leaves the journaled published identities alone. */
  predicate UndoDue(p: Plan, s: State, u: Undo) {
    match u
    case Withdraw(slot) => Is(Look(s.disk, Final(slot)), p.inode(slot))
    case Restore(k) => Look(s.disk, Final(Database(k))) == PostOf(p, s.journal, k) && p.pre(k) != PostOf(p, s.journal, k)
    case Drop(slot) => Look(s.disk, Final(slot)).Some? || (slot == Rollover && Look(s.disk, Staged(slot)).Some?)
    case DropStage => Look(s.disk, Stage).Some?
    case Abandon(side) => !Is(Look(s.disk, Final(Reservation(side))), p.abandoned(side))
  }

  /** The run finds the copy that the interrupted one put back without recording it. */
  predicate Readopts(p: Plan, start: Journal, s: State, u: Undo) {
    u.Restore? && SameState(Look(s.disk, Final(Database(u.key))), p.replica(u.key)) && start.step == Undoing(u, false)
  }

  predicate UndoPossible(p: Plan, s: State, u: Undo) {
    match u
    case Withdraw(slot) => Is(Look(s.disk, Final(slot)), p.inode(slot))
    case Restore(k) =>
      if p.pre(k) == None then Look(s.disk, Final(Database(k))).Some?
      else
        && Look(s.disk, Replica(k)).Some? && Look(s.disk, Replica(k)) == p.replica(k)
        && Look(s.disk, Final(Database(k))) == PostOf(p, s.journal, k)
    case Drop(slot) =>
      if Look(s.disk, Final(slot)).Some? then Is(Look(s.disk, Final(slot)), p.inode(slot))
      else Is(Look(s.disk, Staged(slot)), p.inode(slot))
    case DropStage => Is(Look(s.disk, Stage), p.stage)
    case Abandon(side) =>
      var r := Look(s.disk, Final(Reservation(side)));
      Is(Look(s.disk, Withdrawn(side)), p.abandoned(side))
      && (r == None || Is(r, p.reserved(side)) || Is(r, p.inode(Reservation(side))))
  }

  /** The stage directory holds the staged authorities, the signing stage and the database files and copies. */
  predicate InStage(p: Plan, x: Place) {
    || x == Stage || x == Staged(Signing)
    || (x.Staged? && x.slot.Authority? && x.slot.side in Sides(p))
    || (x.Staged? && x.slot.Database? && x.slot.key in Keys(p))
    || (x.Replica? && x.key in Keys(p))
  }

  function WithoutStage(p: Plan, d: Disk): Disk {
    map x | x in d && !InStage(p, x) :: d[x]
  }

  function Dropped(d: Disk, slot: Slot): Place {
    if Look(d, Final(slot)).Some? then Final(slot) else Staged(slot)
  }

  function UndoEffect(p: Plan, s: State, u: Undo): State
    requires UndoPossible(p, s, u)
  {
    match u
    case Withdraw(slot) => s.(disk := s.disk - {Final(slot)})
    case Restore(k) =>
      if p.pre(k) == None then s.(disk := s.disk - {Final(Database(k))}) else Renamed(s, Replica(k), Final(Database(k)))
    case Drop(slot) => s.(disk := s.disk - {Dropped(s.disk, slot)})
    case DropStage => s.(disk := WithoutStage(p, s.disk))
    case Abandon(side) => Renamed(s, Withdrawn(side), Final(Reservation(side)))
  }

  function UndoCheckpoint(s: State, u: Undo, done: bool): State {
    s.(journal := s.journal.(step := Undoing(u, done), action := Some(Rollback)))
  }

  function Rerecorded(p: Plan, s: State, u: Undo): State {
    if u.Restore? && p.pre(u.key).Some? && Final(Database(u.key)) in s.disk
    then s.(journal := s.journal.(restored := s.journal.restored[u.key := s.disk[Final(Database(u.key))]]))
    else s
  }

  function RunUndo(p: Plan, start: Journal, s: State, u: Undo, fuel: nat): Run {
    if Readopts(p, start, s, u) then
      if fuel == 0 then Run(s, 0, Crashed)
      else Run(UndoCheckpoint(Rerecorded(p, s, u), u, true), fuel - 1, Running)
    else if !UndoDue(p, s, u) then Run(s, fuel, Running)
    else if fuel == 0 then Run(s, 0, Crashed)
    else
      var pending := UndoCheckpoint(s, u, false);
      if !UndoPossible(p, pending, u) then Run(pending, fuel - 1, Died)
      else if fuel == 1 then Run(pending, 0, Crashed)
      else
        var undone := UndoEffect(p, pending, u);
        if fuel == 2 then Run(undone, 0, Crashed)
        else Run(UndoCheckpoint(Rerecorded(p, undone, u), u, true), fuel - 3, Running)
  }

  function RunUndos(p: Plan, start: Journal, s: State, us: seq<Undo>, fuel: nat): Run
    decreases |us|
  {
    if us == [] then Run(s, fuel, Running)
    else
      var r := RunUndo(p, start, s, us[0], fuel);
      if r.status != Running then r else RunUndos(p, start, r.state, us[1..], r.fuel)
  }

  /**
   The steps from which a tree may be missing. The names of the database steps begin like those of the
   root authority, so they count for both authorities.
  */
  predicate MayBeGone(step: Step, slot: Slot) {
    && step.Undoing?
    && match step.undo
       case Withdraw(x) => x == Session
       case Restore(_) => slot.Authority?
       case Drop(x) => x == slot || x == Rollover || (slot == Authority(Intermediate) && x == Authority(Root))
       case DropStage => true
       case Abandon(_) => true
  }

  predicate Gone(p: Plan, s: State, slot: Slot) {
    !Is(Look(s.disk, Staged(slot)), p.inode(slot)) && !Is(Look(s.disk, Final(slot)), p.inode(slot))
  }

  predicate LocatedOrGone(p: Plan, s: State, slot: Slot) {
    Located(p, s, slot) || (s.journal.action == Some(Rollback) && MayBeGone(s.journal.step, slot) && Gone(p, s, slot))
  }

  /** The checks before a rollback changes anything. */
  predicate RollbackAllowed(p: Plan, s: State) {
    && SessionAllowed(p, s)
    && (forall side :: side in Sides(p) ==> ReservationAllowed(p, s, side) && LocatedOrGone(p, s, Authority(side)))
    && LocatedOrGone(p, s, Rollover)
    && PointerAllowed(p, s) && StageAllowed(p, s)
    && (forall k :: k in Keys(p) ==> DatabaseAllowed(p, s, Rollback, k))
    && (p.kind == Intermediate ==> SigningAllowed(p, s))
  }

  function RunRollback(p: Plan, s: State, fuel: nat): Run {
    if !RollbackAllowed(p, s) then Run(s, fuel, Died) else RunUndos(p, s.journal, s, Undos(p), fuel)
  }

  function Rollbacks(p: Plan, s: State, fuels: seq<nat>): State
    decreases |fuels|
  {
    if fuels == [] then s else Rollbacks(p, RunRollback(p, s, fuels[0]).state, fuels[1..])
  }

  // ------------------------------------------------------------------- phases

  function RestorePhase(p: Plan, s: State, k: Key): Phase {
    var final := Look(s.disk, Final(Database(k)));
    if final == p.pre(k) then Done
    else if k in s.journal.post && final == Some(s.journal.post[k]) && SameState(final, p.source(k)) && k !in s.journal.restored then
      if p.pre(k).Some? && Look(s.disk, Replica(k)) != p.replica(k) then Broken else Todo
    else if SameState(final, p.replica(k)) && Look(s.disk, Replica(k)) == None then
      if k !in s.journal.restored then Unrecorded else if final == Some(s.journal.restored[k]) then Done else Broken
    else Broken
  }

  function DropPhase(p: Plan, d: Disk, slot: Slot): Phase {
    var staged, final := Look(d, Staged(slot)), Look(d, Final(slot));
    if final == None then
      if staged == None then Done
      else if !Is(staged, p.inode(slot)) then Broken
      else if slot == Rollover then Todo else Done
    else if Is(final, p.inode(slot)) && staged == None then Todo else Broken
  }

  function UndoPhase(p: Plan, s: State, u: Undo): Phase {
    match u
    case Withdraw(slot) =>
      if Look(s.disk, Final(slot)) == None then Done
      else if Is(Look(s.disk, Final(slot)), p.inode(slot)) then Todo else Broken
    case Restore(k) => RestorePhase(p, s, k)
    case Drop(slot) => DropPhase(p, s.disk, slot)
    case DropStage =>
      if Is(Look(s.disk, Stage), p.stage) then Todo
      else if forall x :: x in s.disk ==> !InStage(p, x) then Done else Broken
    case Abandon(side) =>
      var r := Look(s.disk, Final(Reservation(side)));
      if Is(r, p.abandoned(side)) then Done
      else if (r == None || Is(r, p.reserved(side)) || Is(r, p.inode(Reservation(side))))
              && Is(Look(s.disk, Withdrawn(side)), p.abandoned(side)) then Todo
      else Broken
  }

  /**
   A database file whose evidence is lost: it stands as before the preparation but its staged successor is
   missing, or it stands as published (or untouched for good) and its copy is missing.
  */
  predicate Blocked(p: Plan, s: State, k: Key) {
    var final := Look(s.disk, Final(Database(k)));
    || (final == p.pre(k) && p.source(k).Some? && Look(s.disk, Staged(Database(k))) != p.source(k))
    || (final == PostOf(p, s.journal, k) && p.pre(k).Some? && Look(s.disk, Replica(k)) != p.replica(k))
  }

  ghost predicate UndoneBefore(p: Plan, s: State, i: nat) {
    forall j :: 0 <= j < i && j < |Undos(p)| ==> UndoPhase(p, s, Undos(p)[j]) == Done
  }

  ghost predicate Whole(p: Plan, s: State) {
    && (forall u :: u in Undos(p) ==> UndoPhase(p, s, u) != Broken)
    && (p.kind == Intermediate ==> SigningAllowed(p, s))
    && (forall k :: k in Keys(p) && k in s.journal.post ==> SameState(Some(s.journal.post[k]), p.source(k)))
  }

  ghost predicate ReturnWindow(p: Plan, s: State) {
    forall i :: 0 <= i < |Undos(p)| && UndoPhase(p, s, Undos(p)[i]) == Unrecorded ==>
      s.journal.step == Undoing(Undos(p)[i], false) && s.journal.action == Some(Rollback) && UndoneBefore(p, s, i)
  }

  predicate Tree(p: Plan, slot: Slot) {
    slot == Rollover || (slot.Authority? && slot.side in Sides(p))
  }

  /** A missing tree shows in the journal, and every move whose checkpoint would hide it is done. */
  ghost predicate GoneShows(p: Plan, s: State, slot: Slot) {
    Gone(p, s, slot) ==>
      && s.journal.action == Some(Rollback) && MayBeGone(s.journal.step, slot)
      && forall u :: u in Undos(p) && !MayBeGone(Undoing(u, false), slot) ==> UndoPhase(p, s, u) == Done
  }

  /** A restoration that is pending is not journaled as done. */
  predicate PendingFresh(s: State) {
    s.journal.step.Undoing? && s.journal.step.undo.Restore? && !s.journal.step.finished ==>
      s.journal.step.undo.key !in s.journal.restored
  }

  /** Every state that rollbacks leave behind. */
  ghost predicate Undoable(p: Plan, s: State) {
    && Whole(p, s) && ReturnWindow(p, s) && PendingFresh(s)
    && forall slot :: Tree(p, slot) ==> GoneShows(p, s, slot)
  }

  /** Nothing of the preparation is left but its abandoned reservations. */
  ghost predicate Undone(p: Plan, s: State) {
    && (forall slot :: slot in {Pointer, Session} || Tree(p, slot) ==> Look(s.disk, Final(slot)) == None)
    && Look(s.disk, Staged(Rollover)) == None && (forall x :: x in s.disk ==> !InStage(p, x))
    && (forall side :: side in Sides(p) ==> Is(Look(s.disk, Final(Reservation(side))), p.abandoned(side)))
    && (forall k :: k in Keys(p) ==>
          var final := Look(s.disk, Final(Database(k)));
          final == p.pre(k) || (p.pre(k).Some? && SameState(final, p.replica(k))))
  }

  // ------------------------------------------------------------------ frames

  predicate SaneUndo(u: Undo) {
    match u
    case Withdraw(slot) => slot == Pointer || slot == Session
    case Drop(slot) => slot == Rollover || slot.Authority?
    case _ => true
  }

  predicate UndoReaches(p: Plan, u: Undo, x: Place) {
    match u
    case Withdraw(slot) => x == Final(slot)
    case Restore(k) => x == Replica(k) || x == Final(Database(k))
    case Drop(slot) => x == Final(slot) || x == Staged(slot)
    case DropStage => InStage(p, x)
    case Abandon(side) => x == Withdrawn(side) || x == Final(Reservation(side))
  }

  ghost predicate UndoTouches(p: Plan, s: State, t: State, u: Undo) {
    && t.journal.post == s.journal.post
    && (forall x :: !UndoReaches(p, u, x) ==> Look(t.disk, x) == Look(s.disk, x))
    && (forall x :: x in t.disk && InStage(p, x) ==> x in s.disk && u != DropStage)
    && (forall k :: u != Restore(k) ==> (k in t.journal.restored <==> k in s.journal.restored)
                                        && (k in s.journal.restored ==> t.journal.restored[k] == s.journal.restored[k]))
  }

  lemma OtherUndosKeep(p: Plan, s: State, t: State, u: Undo, other: Undo)
    requires UndoTouches(p, s, t, u) && other != u && SaneUndo(u) && SaneUndo(other)
    requires UndoPhase(p, s, other) != Broken && (u == DropStage || (other == DropStage ==> SameStage(s, t)))
    ensures u != DropStage ==> UndoPhase(p, t, other) == UndoPhase(p, s, other)
    ensures UndoPhase(p, s, other) == Done ==> UndoPhase(p, t, other) == Done
  {
    hide InStage;
    if other == DropStage { StageKeeps(p, s, t, u); }
    if u == DropStage && UndoPhase(p, s, other) == Done { DropStageKeeps(p, s, t, other); }
    if u != DropStage && other != DropStage { PlainKeeps(p, s, t, u, other); }
  }

  predicate SameStage(s: State, t: State) {
    Look(t.disk, Stage) == Look(s.disk, Stage)
  }

  lemma StageKeeps(p: Plan, s: State, t: State, u: Undo)
    requires UndoTouches(p, s, t, u) && u != DropStage && SameStage(s, t) && UndoPhase(p, s, DropStage) != Broken
    ensures UndoPhase(p, t, DropStage) == UndoPhase(p, s, DropStage)
  {
    hide InStage, UndoReaches;
  }

  lemma DropStageKeeps(p: Plan, s: State, t: State, other: Undo)
    requires UndoTouches(p, s, t, DropStage) && other != DropStage && SaneUndo(other)
    requires UndoPhase(p, s, other) == Done
    ensures UndoPhase(p, t, other) == Done
  {
    forall x | !InStage(p, x) ensures Look(t.disk, x) == Look(s.disk, x) { }
    forall x | InStage(p, x) && Look(s.disk, x) == None ensures Look(t.disk, x) == None { }
    if other.Drop? {
      assert !InStage(p, Final(other.slot));
      var staged := Staged(other.slot);
      assert if InStage(p, staged) then Look(t.disk, staged) == None else Look(t.disk, staged) == Look(s.disk, staged);
    }
  }

  lemma PlainKeeps(p: Plan, s: State, t: State, u: Undo, other: Undo)
    requires UndoTouches(p, s, t, u) && other != u && SaneUndo(u) && SaneUndo(other) && u != DropStage && other != DropStage
    ensures UndoPhase(p, t, other) == UndoPhase(p, s, other)
  {
    hide InStage;
  }

  // ---------------------------------------------------------------- positions

  function AfterRestores(p: Plan): seq<Undo> {
    Drops(p) + [Drop(Rollover), DropStage] + Abandons(p) + [Withdraw(Session)]
  }

  lemma UndoAt(p: Plan, n: nat)
    requires n < |Undos(p)|
    ensures |Undos(p)| == 1 + |Keys(p)| + |AfterRestores(p)|
    ensures Undos(p)[n] == if n == 0 then Withdraw(Pointer) else if n <= |Keys(p)| then Restore(Keys(p)[n - 1])
                           else AfterRestores(p)[n - 1 - |Keys(p)|]
  {
    assert Undos(p) == [Withdraw(Pointer)] + Restores(Keys(p)) + AfterRestores(p);
  }

  lemma UndosSane(p: Plan, u: Undo)
    requires u in Undos(p)
    ensures SaneUndo(u) && (u.Restore? ==> u.key in Keys(p)) && (u.Abandon? ==> u.side in Sides(p))
    ensures u.Drop? ==> Tree(p, u.slot)
  {
    hide Undos;
    var n :| 0 <= n < |Undos(p)| && Undos(p)[n] == u;
    UndoAt(p, n);
  }

  lemma RestoreOnce(p: Plan, i: nat, j: nat)
    requires WellFormed(p) && i < |Undos(p)| && j < |Undos(p)| && Undos(p)[i] == Undos(p)[j] && Undos(p)[i].Restore?
    ensures i == j
  {
    hide Undos;
    UndoAt(p, i);
    UndoAt(p, j);
  }

  /** What must be done before a tree is removed comes before it. */
  lemma HiddenBefore(p: Plan, i: nat, j: nat, slot: Slot)
    requires i < |Undos(p)| && j < |Undos(p)| && Tree(p, slot)
    requires Undos(p)[i] == Drop(slot) || Undos(p)[i] == DropStage
    requires !MayBeGone(Undoing(Undos(p)[j], false), slot)
    ensures j < i
  {
    hide Undos;
    UndoAt(p, i);
    UndoAt(p, j);
  }

  predicate Late(u: Undo) { u.Abandon? || u == Withdraw(Session) }

  lemma LateAfterStage(p: Plan, i: nat, j: nat)
    requires i < |Undos(p)| && j < |Undos(p)| && Undos(p)[i] == DropStage && i < j
    ensures Late(Undos(p)[j])
  {
    hide Undos;
    UndoAt(p, i);
    UndoAt(p, j);
  }

  // --------------------------------------------------------------- one effect

  lemma UndoDueExactly(p: Plan, start: Journal, s: State, u: Undo)
    requires WellFormed(p) && Whole(p, s) && u in Undos(p)
    ensures UndoPhase(p, s, u) == Todo ==> UndoDue(p, s, u) && UndoPossible(p, s, u) && !Readopts(p, start, s, u)
    ensures UndoPhase(p, s, u) == Done ==> !UndoDue(p, s, u)
    ensures UndoPhase(p, s, u) == Unrecorded ==> u.Restore? && (start.step == Undoing(u, false) ==> Readopts(p, start, s, u))
    ensures Readopts(p, start, s, u) ==> p.pre(u.key).Some? && (UndoPhase(p, s, u) == Unrecorded || UndoPhase(p, s, u) == Done)
  {
    hide Undos;
    UndosSane(p, u);
    if u.Restore? { assert KeyWellFormed(p, u.key); }
  }

  lemma UndoTodoAdvances(p: Plan, s: State, u: Undo)
    requires UndoPhase(p, s, u) == Todo && UndoPossible(p, s, u) && SaneUndo(u)
    requires u.Restore? ==> KeyWellFormed(p, u.key)
    ensures UndoPhase(p, UndoEffect(p, s, u), u) == if u.Restore? && p.pre(u.key).Some? then Unrecorded else Done
    ensures UndoEffect(p, s, u).journal == s.journal
  {
    assert InStage(p, Stage);
  }

  lemma UndoEffectTouches(p: Plan, s: State, u: Undo)
    requires UndoPossible(p, s, u) && SaneUndo(u)
    ensures UndoTouches(p, s, UndoEffect(p, s, u), u)
    ensures u != DropStage ==> SameStage(s, UndoEffect(p, s, u))
  {
    hide UndoPhase;
  }

  lemma LateKeeps(p: Plan, s: State, t: State, u: Undo)
    requires UndoTouches(p, s, t, DropStage) && Late(u)
    ensures UndoPhase(p, t, u) == UndoPhase(p, s, u)
  {
  }

  /** No move is broken by another: what is done stays done, and what comes later waits unchanged. */
  lemma UndoOthers(p: Plan, s: State, t: State, i: nat)
    requires Whole(p, s) && i < |Undos(p)| && UndoneBefore(p, s, i)
    requires UndoTouches(p, s, t, Undos(p)[i]) && (Undos(p)[i] != DropStage ==> SameStage(s, t))
    ensures forall o :: o in Undos(p) && o != Undos(p)[i] ==> UndoPhase(p, t, o) == UndoPhase(p, s, o)
  {
    hide Undos, UndoPhase, UndoTouches, InStage;
    var u := Undos(p)[i];
    UndosSane(p, u);
    forall o | o in Undos(p) && o != u ensures UndoPhase(p, t, o) == UndoPhase(p, s, o) {
      UndosSane(p, o);
      OtherUndosKeep(p, s, t, u, o);
      if u == DropStage {
        var j :| 0 <= j < |Undos(p)| && Undos(p)[j] == o;
        if j > i { LateAfterStage(p, i, j); LateKeeps(p, s, t, o); }
      }
    }
  }

  /** One move's effect: only its own phase changes, and no evidence is broken. */
  lemma UndoStep(p: Plan, s: State, i: nat)
    requires WellFormed(p) && Whole(p, s) && i < |Undos(p)| && UndoneBefore(p, s, i) && UndoPhase(p, s, Undos(p)[i]) == Todo
    ensures UndoPossible(p, s, Undos(p)[i])
    ensures var u := Undos(p)[i];
            var t := UndoEffect(p, s, u);
            && Whole(p, t) && t.journal == s.journal
            && (forall o :: o in Undos(p) && o != u ==> UndoPhase(p, t, o) == UndoPhase(p, s, o))
            && UndoPhase(p, t, u) == if u.Restore? && p.pre(u.key).Some? then Unrecorded else Done
  {
    hide Undos, UndoPhase, UndoEffect, UndoPossible, InStage, UndoTouches, SigningAllowed, UndoDue, Readopts;
    var u := Undos(p)[i];
    UndosSane(p, u);
    UndoDueExactly(p, s.journal, s, u);
    UndoTodoAdvances(p, s, u);
    UndoEffectTouches(p, s, u);
    UndoOthers(p, s, UndoEffect(p, s, u), i);
    if SigningAllowed(p, s) { SigningKeeps(p, s, UndoEffect(p, s, u), u); }
  }

  lemma SigningKeeps(p: Plan, s: State, t: State, u: Undo)
    requires SigningAllowed(p, s) && UndoTouches(p, s, t, u) && SaneUndo(u)
    ensures SigningAllowed(p, t)
  {
  }

  lemma RerecordStep(p: Plan, s: State, i: nat)
    requires WellFormed(p) && Whole(p, s) && i < |Undos(p)|
    requires UndoPhase(p, s, Undos(p)[i]) == Done || UndoPhase(p, s, Undos(p)[i]) == Unrecorded
    ensures var u := Undos(p)[i];
            var t := Rerecorded(p, s, u);
            && Whole(p, t) && t.disk == s.disk && t.journal.post == s.journal.post
            && t.journal.step == s.journal.step && t.journal.action == s.journal.action
            && (forall o :: o in Undos(p) && o != u ==> UndoPhase(p, t, o) == UndoPhase(p, s, o))
            && UndoPhase(p, t, u) == Done
  {
    hide Undos, InStage;
    var u := Undos(p)[i];
    UndosSane(p, u);
    var t := Rerecorded(p, s, u);
    RerecordPhase(p, s, u);
    forall o | o in Undos(p) && o != u ensures UndoPhase(p, t, o) == UndoPhase(p, s, o) { RerecordOthers(p, s, u, o); }
  }

  lemma RerecordPhase(p: Plan, s: State, u: Undo)
    requires UndoPhase(p, s, u) == Done || UndoPhase(p, s, u) == Unrecorded
    requires u.Restore? ==> KeyWellFormed(p, u.key)
    ensures UndoPhase(p, Rerecorded(p, s, u), u) == Done
  {
    hide InStage;
  }

  lemma RerecordOthers(p: Plan, s: State, u: Undo, o: Undo)
    requires o != u
    ensures UndoPhase(p, Rerecorded(p, s, u), o) == UndoPhase(p, s, o)
  {
    hide InStage;
  }

  // -------------------------------------------------------------- whole runs

  lemma UndoCheckpointKeeps(p: Plan, s: State, u: Undo, done: bool, o: Undo)
    ensures UndoPhase(p, UndoCheckpoint(s, u, done), o) == UndoPhase(p, s, o)
  {
    hide InStage;
  }

  ghost predicate Trees(p: Plan, s: State) {
    forall slot :: Tree(p, slot) ==> GoneShows(p, s, slot)
  }

  ghost predicate SettledUndos(p: Plan, s: State) {
    forall u :: u in Undos(p) ==> UndoPhase(p, s, u) != Unrecorded
  }

  lemma SettledUndoable(p: Plan, s: State)
    requires Whole(p, s) && Trees(p, s) && SettledUndos(p, s) && PendingFresh(s)
    ensures Undoable(p, s)
  {
    hide Undos, UndoPhase;
  }

  ghost predicate Rewinding(p: Plan, start: Journal, s: State, i: nat) {
    && i <= |Undos(p)| && Undoable(p, s) && UndoneBefore(p, s, i)
    && (forall j :: 0 <= j < |Undos(p)| && UndoPhase(p, s, Undos(p)[j]) == Unrecorded ==> start.step == Undoing(Undos(p)[j], false))
    && (forall j :: i <= j < |Undos(p)| && Undos(p)[j].Restore? && start.step == Undoing(Undos(p)[j], false) ==>
          Undos(p)[j].key !in s.journal.restored)
  }

  /** The checkpoint before a move that is to be done hides no missing tree. */
  lemma PendingUndoable(p: Plan, s: State, i: nat)
    requires Undoable(p, s) && i < |Undos(p)| && UndoneBefore(p, s, i) && UndoPhase(p, s, Undos(p)[i]) == Todo
    ensures SettledUndos(p, s)
    ensures var t := UndoCheckpoint(s, Undos(p)[i], false);
            && Undoable(p, t) && SettledUndos(p, t) && forall o :: o in Undos(p) ==> UndoPhase(p, t, o) == UndoPhase(p, s, o)
  {
    hide Undos, UndoPhase, Located, SigningAllowed;
    var u := Undos(p)[i];
    var t := UndoCheckpoint(s, u, false);
    forall o ensures UndoPhase(p, t, o) == UndoPhase(p, s, o) { UndoCheckpointKeeps(p, s, u, false, o); }
    assert SettledUndos(p, s) by {
      forall j | 0 <= j < |Undos(p)| ensures UndoPhase(p, s, Undos(p)[j]) != Unrecorded { }
    }
    SigningSame(p, s, t);
    forall slot | Tree(p, slot) ensures GoneShows(p, t, slot) { assert GoneShows(p, s, slot); }
    if u.Restore? { TodoFresh(p, s, u); }
    SettledUndoable(p, t);
  }

  lemma TodoFresh(p: Plan, s: State, u: Undo)
    requires UndoPhase(p, s, u) == Todo && u.Restore?
    ensures u.key !in s.journal.restored
  {
  }

  lemma SigningSame(p: Plan, s: State, t: State)
    requires t.disk == s.disk
    ensures SigningAllowed(p, t) == SigningAllowed(p, s)
  {
  }

  lemma WhatRemoves(p: Plan, s: State, t: State, u: Undo, slot: Slot)
    requires UndoTouches(p, s, t, u) && SaneUndo(u) && Tree(p, slot) && !Gone(p, s, slot) && Gone(p, t, slot)
    ensures u == Drop(slot) || u == DropStage
  {
    assert !UndoReaches(p, u, Staged(slot)) && !UndoReaches(p, u, Final(slot)) ==>
        Look(t.disk, Staged(slot)) == Look(s.disk, Staged(slot)) && Look(t.disk, Final(slot)) == Look(s.disk, Final(slot));
  }

  /** A removed tree shows in the checkpoint before its removal. */
  lemma RemovalShows(p: Plan, s: State, t: State, i: nat, slot: Slot)
    requires i < |Undos(p)| && UndoneBefore(p, s, i) && UndoPhase(p, s, Undos(p)[i]) == Todo
    requires s.journal.step == Undoing(Undos(p)[i], false) && s.journal.action == Some(Rollback) && t.journal == s.journal
    requires UndoTouches(p, s, t, Undos(p)[i]) && Tree(p, slot) && GoneShows(p, s, slot)
    requires forall o :: o in Undos(p) && o != Undos(p)[i] ==> UndoPhase(p, t, o) == UndoPhase(p, s, o)
    ensures GoneShows(p, t, slot)
  {
    hide Undos, UndoPhase, UndoTouches;
    var u := Undos(p)[i];
    if Gone(p, t, slot) && !Gone(p, s, slot) {
      UndosSane(p, u);
      WhatRemoves(p, s, t, u, slot);
      forall o | o in Undos(p) && !MayBeGone(Undoing(o, false), slot) ensures UndoPhase(p, t, o) == Done {
        var j :| 0 <= j < |Undos(p)| && Undos(p)[j] == o;
        HiddenBefore(p, i, j, slot);
      }
    }
  }

  lemma ReturnWindowOpens(p: Plan, s: State, t: State, i: nat)
    requires WellFormed(p) && i < |Undos(p)| && UndoneBefore(p, s, i) && UndoPhase(p, s, Undos(p)[i]) == Todo && SettledUndos(p, s)
    requires forall o :: o in Undos(p) && o != Undos(p)[i] ==> UndoPhase(p, t, o) == UndoPhase(p, s, o)
    requires t.journal.step == Undoing(Undos(p)[i], false) && t.journal.action == Some(Rollback)
    requires UndoPhase(p, t, Undos(p)[i]) == Unrecorded ==> Undos(p)[i].Restore?
    ensures ReturnWindow(p, t)
  {
    hide Undos, UndoPhase;
    var us := Undos(p);
    forall j | 0 <= j < |us| && UndoPhase(p, t, us[j]) == Unrecorded ensures us[j] == us[i] && UndoneBefore(p, t, j) {
      assert us[j] == us[i];
      RestoreOnce(p, i, j);
    }
  }

  /** The three writes of a move that is to be done. */
  lemma TodoRewinds(p: Plan, start: Journal, s: State, i: nat)
    requires WellFormed(p) && i < |Undos(p)| && Rewinding(p, start, s, i) && UndoPhase(p, s, Undos(p)[i]) == Todo
    ensures var u := Undos(p)[i];
            var pending := UndoCheckpoint(s, u, false);
            && Undoable(p, pending) && UndoPossible(p, pending, u)
            && var undone := UndoEffect(p, pending, u);
               && Undoable(p, undone)
               && Rewinding(p, start, UndoCheckpoint(Rerecorded(p, undone, u), u, true), i + 1)
  {
    hide Undos, UndoPhase, UndoEffect, UndoPossible, InStage, UndoTouches, SigningAllowed, Rerecorded, GoneShows;
    var us, u := Undos(p), Undos(p)[i];
    UndosSane(p, u);
    PendingUndoable(p, s, i);
    var pending := UndoCheckpoint(s, u, false);
    UndoStep(p, pending, i);
    UndoEffectTouches(p, pending, u);
    var undone := UndoEffect(p, pending, u);
    forall slot | Tree(p, slot) ensures GoneShows(p, undone, slot) { RemovalShows(p, pending, undone, i, slot); }
    ReturnWindowOpens(p, pending, undone, i);
    RecordedRewinds(p, start, undone, i);
  }

  /** Once a move is recorded as done, nothing waits. */
  lemma RecordedRewinds(p: Plan, start: Journal, s: State, i: nat)
    requires WellFormed(p) && i < |Undos(p)| && Whole(p, s) && Trees(p, s) && UndoneBefore(p, s, i)
    requires forall j :: i <= j < |Undos(p)| && Undos(p)[j].Restore? && start.step == Undoing(Undos(p)[j], false) ==>
               Undos(p)[j].key !in s.journal.restored
    requires UndoPhase(p, s, Undos(p)[i]) == Done || UndoPhase(p, s, Undos(p)[i]) == Unrecorded
    requires s.journal.step == Undoing(Undos(p)[i], false) && s.journal.action == Some(Rollback)
    requires forall o :: o in Undos(p) && o != Undos(p)[i] ==> UndoPhase(p, s, o) != Unrecorded
    ensures Rewinding(p, start, UndoCheckpoint(Rerecorded(p, s, Undos(p)[i]), Undos(p)[i], true), i + 1)
  {
    hide Undos, UndoPhase, InStage, SigningAllowed, Rerecorded;
    var us, u := Undos(p), Undos(p)[i];
    RerecordStep(p, s, i);
    var recorded := Rerecorded(p, s, u);
    var t := UndoCheckpoint(recorded, u, true);
    forall o ensures UndoPhase(p, t, o) == UndoPhase(p, recorded, o) { UndoCheckpointKeeps(p, recorded, u, true, o); }
    SigningSame(p, recorded, t);
    forall slot | Tree(p, slot) ensures GoneShows(p, t, slot) { assert GoneShows(p, s, slot); }
    SettledUndoable(p, t);
    forall j | 0 <= j < i + 1 ensures UndoPhase(p, t, us[j]) == Done {
      if us[j] != u { assert UndoPhase(p, s, us[j]) == Done; }
    }
    forall j | i + 1 <= j < |us| && us[j].Restore? && start.step == Undoing(us[j], false)
      ensures us[j].key !in t.journal.restored
    {
      if us[i] == us[j] { RestoreOnce(p, i, j); }
      RerecordsOne(p, s, u, us[j].key);
    }
  }

  lemma RerecordsOne(p: Plan, s: State, u: Undo, k: Key)
    requires u != Restore(k) && k !in s.journal.restored
    ensures k !in Rerecorded(p, s, u).journal.restored
  {
  }

  lemma ReadoptsWaiting(p: Plan, start: Journal, s: State, i: nat)
    requires WellFormed(p) && i < |Undos(p)| && Rewinding(p, start, s, i) && Readopts(p, start, s, Undos(p)[i])
    ensures UndoPhase(p, s, Undos(p)[i]) == Unrecorded && Undos(p)[i].Restore?
  {
    hide Undos, InStage;
    UndosSane(p, Undos(p)[i]);
    assert KeyWellFormed(p, Undos(p)[i].key);
    assert UndoPhase(p, s, Undos(p)[i]) != Broken;
  }

  lemma ReadoptionRewinds(p: Plan, start: Journal, s: State, i: nat)
    requires WellFormed(p) && i < |Undos(p)| && Rewinding(p, start, s, i) && Readopts(p, start, s, Undos(p)[i])
    ensures Undos(p)[i].Restore?
    ensures Rewinding(p, start, UndoCheckpoint(Rerecorded(p, s, Undos(p)[i]), Undos(p)[i], true), i + 1)
  {
    hide Undos, UndoPhase, InStage, SigningAllowed, Rerecorded, GoneShows;
    ReadoptsWaiting(p, start, s, i);
    forall j | 0 <= j < |Undos(p)| ensures Undos(p)[j] != Undos(p)[i] ==> UndoPhase(p, s, Undos(p)[j]) != Unrecorded { }
    RecordedRewinds(p, start, s, i);
  }

  /** One move of a rollback. */
  lemma UndoKeeps(p: Plan, start: Journal, s: State, i: nat, fuel: nat)
    requires WellFormed(p) && i < |Undos(p)| && Rewinding(p, start, s, i)
    ensures var r := RunUndo(p, start, s, Undos(p)[i], fuel);
            && r.status != Died && Undoable(p, r.state)
            && (fuel >= 3 ==> r.status == Running)
            && (r.status == Running ==> Rewinding(p, start, r.state, i + 1) && r.fuel + 3 >= fuel)
  {
    hide Undos, UndoPhase, UndoEffect, UndoPossible, UndoDue, Readopts, InStage, SigningAllowed, Rerecorded, GoneShows;
    var u := Undos(p)[i];
    UndoDueExactly(p, start, s, u);
    if Readopts(p, start, s, u) {
      ReadoptionRewinds(p, start, s, i);
    } else if UndoPhase(p, s, u) == Todo {
      TodoRewinds(p, start, s, i);
    } else {
      assert UndoneBefore(p, s, i + 1);
    }
  }

  lemma {:induction false} UndosKeep(p: Plan, start: Journal, s: State, i: nat, fuel: nat)
    requires WellFormed(p) && Rewinding(p, start, s, i)
    ensures var r := RunUndos(p, start, s, Undos(p)[i..], fuel);
            && r.status != Died && Undoable(p, r.state)
            && (r.status == Running ==> UndoneBefore(p, r.state, |Undos(p)|))
            && (fuel >= 3 * (|Undos(p)| - i) ==> r.status == Running)
    decreases |Undos(p)| - i
  {
    hide Undos, RunUndo, UndoPhase, Whole, ReturnWindow, GoneShows, InStage;
    var us := Undos(p);
    if i < |us| {
      UndoKeeps(p, start, s, i, fuel);
      var r := RunUndo(p, start, s, us[i], fuel);
      assert us[i..][1..] == us[i + 1..];
      if r.status == Running { UndosKeep(p, start, r.state, i + 1, r.fuel); }
    }
  }

  /** All moves done leaves nothing behind. */
  lemma AllUndone(p: Plan, s: State)
    requires WellFormed(p) && UndoneBefore(p, s, |Undos(p)|)
    ensures Undone(p, s)
  {
    hide Undos, InStage;
    forall u | u in Undos(p) ensures UndoPhase(p, s, u) == Done { var j :| 0 <= j < |Undos(p)| && Undos(p)[j] == u; }
    FixedUndos(p);
    forall side | side in Sides(p) ensures Drop(Authority(side)) in Undos(p) && Abandon(side) in Undos(p) { SideUndos(p, side); }
    forall k | k in Keys(p) ensures Restore(k) in Undos(p) { RestoreIn(p, k); }
    forall k | k in Keys(p)
      ensures Look(s.disk, Final(Database(k))) == p.pre(k)
           || (p.pre(k).Some? && SameState(Look(s.disk, Final(Database(k))), p.replica(k)))
    {
      assert UndoPhase(p, s, Restore(k)) == Done && KeyWellFormed(p, k);
    }
  }

  lemma FixedUndos(p: Plan)
    ensures Withdraw(Pointer) in Undos(p) && Withdraw(Session) in Undos(p) && Drop(Rollover) in Undos(p) && DropStage in Undos(p)
  {
    var us := Undos(p);
    assert us == [Withdraw(Pointer)] + Restores(Keys(p)) + AfterRestores(p);
    assert us[0] == Withdraw(Pointer) && us[|us| - 1] == Withdraw(Session);
    assert Drop(Rollover) in AfterRestores(p) && DropStage in AfterRestores(p);
  }

  lemma SideUndos(p: Plan, side: Side)
    requires side in Sides(p)
    ensures Drop(Authority(side)) in Undos(p) && Abandon(side) in Undos(p)
  {
    assert Drop(Authority(side)) in Drops(p) && Abandon(side) in Abandons(p);
  }

  lemma RestoreIn(p: Plan, k: Key)
    requires k in Keys(p)
    ensures Restore(k) in Undos(p)
  {
    var j :| 0 <= j < |Keys(p)| && Keys(p)[j] == k;
    assert Restores(Keys(p))[j] == Restore(k);
    assert Restore(k) in Restores(Keys(p));
  }

  // --------------------------------------------------------------- preflight

  ghost predicate Unblocked(p: Plan, s: State) {
    forall k :: k in Keys(p) ==> !Blocked(p, s, k)
  }

  lemma BlockedRefused(p: Plan, s: State, action: Action, k: Key)
    requires Blocked(p, s, k)
    ensures !DatabaseAllowed(p, s, action, k)
  {
  }

  lemma UnblockedAllowed(p: Plan, s: State, k: Key)
    requires WellFormed(p) && Undoable(p, s) && k in Keys(p) && !Blocked(p, s, k)
    ensures DatabaseAllowed(p, s, Rollback, k)
  {
    hide Undos, InStage;
    assert KeyWellFormed(p, k);
    RestoreIn(p, k);
    var i :| 0 <= i < |Undos(p)| && Undos(p)[i] == Restore(k);
    assert UndoPhase(p, s, Undos(p)[i]) != Broken;
  }

  lemma TreeAllowed(p: Plan, s: State, slot: Slot)
    requires Undoable(p, s) && Tree(p, slot)
    ensures LocatedOrGone(p, s, slot)
  {
    hide Undos, InStage;
    assert GoneShows(p, s, slot);
    FixedUndos(p);
    if slot.Authority? { SideUndos(p, slot.side); }
    assert UndoPhase(p, s, Drop(slot)) != Broken;
  }

  lemma SideAllowed(p: Plan, s: State, side: Side)
    requires Undoable(p, s) && side in Sides(p)
    ensures ReservationAllowed(p, s, side)
  {
    hide Undos, InStage;
    SideUndos(p, side);
    assert UndoPhase(p, s, Abandon(side)) != Broken;
  }

  lemma FixedAllowed(p: Plan, s: State)
    requires Undoable(p, s)
    ensures SessionAllowed(p, s) && PointerAllowed(p, s) && StageAllowed(p, s)
  {
    hide Undos;
    FixedUndos(p);
    assert UndoPhase(p, s, Withdraw(Session)) != Broken && UndoPhase(p, s, Withdraw(Pointer)) != Broken;
    assert UndoPhase(p, s, DropStage) != Broken && InStage(p, Stage);
  }

  /** The first checks refuse exactly when a database file is blocked, and then they refuse a resume as well. */
  lemma RollbackAllowedExactly(p: Plan, s: State)
    requires WellFormed(p) && Undoable(p, s)
    ensures RollbackAllowed(p, s) <==> Unblocked(p, s)
    ensures !Unblocked(p, s) ==> !ResumeAllowed(p, s)
  {
    hide Undos, InStage, UndoPhase, DatabaseAllowed, Blocked, LocatedOrGone, ReservationAllowed, ReturnWindow, GoneShows;
    FixedAllowed(p, s);
    TreeAllowed(p, s, Rollover);
    forall side | side in Sides(p) ensures ReservationAllowed(p, s, side) && LocatedOrGone(p, s, Authority(side)) {
      SideAllowed(p, s, side);
      TreeAllowed(p, s, Authority(side));
    }
    forall k | k in Keys(p)
      ensures DatabaseAllowed(p, s, Rollback, k) <==> !Blocked(p, s, k)
      ensures Blocked(p, s, k) ==> !DatabaseAllowed(p, s, Resume, k)
    {
      if Blocked(p, s, k) {
        BlockedRefused(p, s, Rollback, k);
        BlockedRefused(p, s, Resume, k);
      } else {
        UnblockedAllowed(p, s, k);
      }
    }
  }

  lemma RewindingAtStart(p: Plan, s: State)
    requires Undoable(p, s)
    ensures Rewinding(p, s.journal, s, 0)
  {
    hide Undos, UndoPhase, Whole, GoneShows;
  }

  lemma RollbackKeeps(p: Plan, s: State, fuel: nat)
    requires WellFormed(p) && Undoable(p, s)
    ensures var r := RunRollback(p, s, fuel);
            && Undoable(p, r.state)
            && (r.status == Died <==> !Unblocked(p, s)) && (!Unblocked(p, s) ==> r.state == s)
            && (r.status == Running ==> Undone(p, r.state))
            && (Unblocked(p, s) && fuel >= 3 * |Undos(p)| ==> r.status == Running)
  {
    hide Undos, UndoPhase, RollbackAllowed, Unblocked, Undoable, Undone;
    RollbackAllowedExactly(p, s);
    if Unblocked(p, s) {
      assert Undos(p)[0..] == Undos(p);
      RewindingAtStart(p, s);
      UndosKeep(p, s.journal, s, 0, fuel);
      var r := RunRollback(p, s, fuel);
      if r.status == Running { AllUndone(p, r.state); }
    }
  }

  /**
   After any interrupted rollbacks: an uninterrupted one completes exactly if no database file is blocked.
   Otherwise no recovery, in either direction, changes anything any more.
  */
  lemma {:induction false} RollbackExact(p: Plan, s: State, fuels: seq<nat>, fuel: nat)
    requires WellFormed(p) && Undoable(p, s) && fuel >= 3 * |Undos(p)|
    ensures var t := Rollbacks(p, s, fuels);
            var r := RunRollback(p, t, fuel);
            && Undoable(p, t)
            && (r.status == Running <==> Unblocked(p, t)) && (Unblocked(p, t) ==> Undone(p, r.state))
            && (!Unblocked(p, t) ==> r.status == Died && r.state == t && RunResume(p, t, fuel).status == Died)
    decreases |fuels|
  {
    hide Undos, Undoable, Undone, Unblocked, RunRollback, ResumeAllowed, RollbackAllowed;
    if fuels == [] {
      RollbackKeeps(p, s, fuel);
      RollbackAllowedExactly(p, s);
    } else {
      RollbackKeeps(p, s, fuels[0]);
      RollbackExact(p, RunRollback(p, s, fuels[0]).state, fuels[1..], fuel);
    }
  }

  // ------------------------------------------------------ where it may start

  lemma ResumableRestores(p: Plan, s: State, k: Key)
    requires WellFormed(p) && k in Keys(p) && PhaseOf(p, s, Update(k)) != Broken && Evidence(p, s.disk) && s.journal.restored == map[]
    ensures PhaseOf(p, s, Update(k)) != Unrecorded ==> UndoPhase(p, s, Restore(k)) in {Todo, Done} && !Blocked(p, s, k)
    ensures PhaseOf(p, s, Update(k)) != Unrecorded && k in s.journal.post ==> SameState(Some(s.journal.post[k]), p.source(k))
  {
    hide InStage;
    assert KeyWellFormed(p, k);
  }

  /** From every settled state of the publishing run and its resumes a rollback can start. */
  lemma ResumableUndoable(p: Plan, s: State)
    requires WellFormed(p) && Resumable(p, s) && Settled(p, s, ResumeMoves(p)) && s.journal.restored == map[]
    ensures Undoable(p, s) && Unblocked(p, s)
  {
    hide Undos, ResumeMoves, PhaseOf, UndoPhase, Blocked, InStage, SigningAllowed, Evidence;
    forall k | k in Keys(p)
      ensures !Blocked(p, s, k) && UndoPhase(p, s, Restore(k)) in {Todo, Done}
      ensures k in s.journal.post ==> SameState(Some(s.journal.post[k]), p.source(k))
    {
      UpdateInPlan(p, k);
      ResumableRestores(p, s, k);
    }
    forall u | u in Undos(p) ensures UndoPhase(p, s, u) in {Todo, Done} {
      UndosSane(p, u);
      if !u.Restore? { ResumableOther(p, s, u); }
    }
    forall slot | Tree(p, slot) ensures !Gone(p, s, slot) { ResumableTree(p, s, slot); }
    if p.kind == Intermediate { ResumableSigning(p, s); }
    SettledUndoable(p, s);
  }

  lemma ResumableOther(p: Plan, s: State, u: Undo)
    requires WellFormed(p) && Resumable(p, s) && u in Undos(p) && SaneUndo(u) && !u.Restore?
    requires (u.Abandon? ==> u.side in Sides(p)) && (u.Drop? ==> Tree(p, u.slot))
    ensures UndoPhase(p, s, u) in {Todo, Done}
  {
    hide Undos, ResumeMoves, InStage;
    FixedMoves(p);
    if u.Abandon? { SideMoves(p, u.side); }
    if u.Drop? && u.slot.Authority? { SideMoves(p, u.slot.side); }
    assert forall m :: m in ResumeMoves(p) ==> PhaseOf(p, s, m) != Broken;
    match u
    case Abandon(side) => assert PhaseOf(p, s, Consume(side)) != Broken;
    case Drop(slot) => assert PhaseOf(p, s, Publish(slot)) != Broken;
    case Withdraw(slot) => assert PhaseOf(p, s, Publish(slot)) != Broken;
    case _ =>
  }

  lemma ResumableTree(p: Plan, s: State, slot: Slot)
    requires Resumable(p, s) && Tree(p, slot)
    ensures !Gone(p, s, slot)
  {
    hide ResumeMoves;
    FixedMoves(p);
    if slot.Authority? { SideMoves(p, slot.side); }
    assert PhaseOf(p, s, Publish(slot)) != Broken;
  }

  lemma ResumableSigning(p: Plan, s: State)
    requires Resumable(p, s) && p.kind == Intermediate
    ensures SigningAllowed(p, s)
  {
    hide ResumeMoves;
    FixedMoves(p);
    assert PhaseOf(p, s, Discard) != Broken;
  }

  // ------------------------------------------------------- what blocks it

  /** Once the stage is removed, exactly the files that were not replaced are blocked, if there is anything to ask for. */
  lemma StageRemovalBlocks(p: Plan, s: State, k: Key)
    requires WellFormed(p) && Undoable(p, s) && k in Keys(p) && Look(s.disk, Stage) == None
    ensures Blocked(p, s, k) <==>
            Look(s.disk, Final(Database(k))) == p.pre(k) && (p.source(k).Some? || p.pre(k).Some?)
  {
    hide Undos;
    assert KeyWellFormed(p, k);
    FixedUndos(p);
    RestoreIn(p, k);
    assert UndoPhase(p, s, DropStage) == Done && InStage(p, Staged(Database(k))) && InStage(p, Replica(k));
    assert UndoPhase(p, s, Restore(k)) != Broken;
  }

  // ------------------------------------------------------------ reservations

  predicate ReservedFor(s: State, side: Side) {
    Look(s.disk, Final(Reservation(side))).Some?
  }

  lemma MoveKeepsReservation(p: Plan, start: Journal, s: State, who: Who, m: Move, fuel: nat, side: Side)
    requires ReservedFor(s, side) && Sane(m)
    ensures ReservedFor(RunMove(p, start, s, who, m, fuel).state, side)
  {
    hide Due, Adopts;
  }

  lemma {:induction false} MovesKeepReservation(p: Plan, start: Journal, s: State, who: Who, ms: seq<Move>, fuel: nat, side: Side)
    requires ReservedFor(s, side) && forall m :: m in ms ==> Sane(m)
    ensures ReservedFor(RunMoves(p, start, s, who, ms, fuel).state, side)
    decreases |ms|
  {
    hide RunMove, ReservedFor;
    if ms != [] {
      MoveKeepsReservation(p, start, s, who, ms[0], fuel, side);
      var r := RunMove(p, start, s, who, ms[0], fuel);
      MovesKeepReservation(p, start, r.state, who, ms[1..], r.fuel, side);
    }
  }

  lemma UndoKeepsReservation(p: Plan, start: Journal, s: State, u: Undo, fuel: nat, side: Side)
    requires ReservedFor(s, side) && SaneUndo(u)
    ensures ReservedFor(RunUndo(p, start, s, u, fuel).state, side)
  {
    hide UndoDue, Readopts;
  }

  lemma {:induction false} UndosKeepReservation(p: Plan, start: Journal, s: State, us: seq<Undo>, fuel: nat, side: Side)
    requires ReservedFor(s, side) && forall u :: u in us ==> SaneUndo(u)
    ensures ReservedFor(RunUndos(p, start, s, us, fuel).state, side)
    decreases |us|
  {
    hide RunUndo, ReservedFor;
    if us != [] {
      UndoKeepsReservation(p, start, s, us[0], fuel, side);
      var r := RunUndo(p, start, s, us[0], fuel);
      UndosKeepReservation(p, start, r.state, us[1..], r.fuel, side);
    }
  }

  /** No run removes a reservation: the publishing run and both recoveries only replace it, from every state. */
  lemma ReservationsStay(p: Plan, s: State, fuel: nat, side: Side)
    requires ReservedFor(s, side)
    ensures ReservedFor(RunForward(p, s, fuel).state, side)
    ensures ReservedFor(RunResume(p, s, fuel).state, side)
    ensures ReservedFor(RunRollback(p, s, fuel).state, side)
  {
    hide RunMoves, RunUndos, ResumeMoves, ForwardMoves, Undos, ReservedFor, ResumeAllowed, RollbackAllowed;
    MovesSane(p);
    MovesKeepReservation(p, s.journal, s, Forward, ForwardMoves(p), fuel, side);
    MovesKeepReservation(p, s.journal, s, Resuming, ResumeMoves(p), fuel, side);
    forall u | u in Undos(p) ensures SaneUndo(u) { UndosSane(p, u); }
    UndosKeepReservation(p, s.journal, s, Undos(p), fuel, side);
  }
}
