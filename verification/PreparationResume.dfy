/**
 Resuming a preparation converges: from every checkpoint of the publishing run, and after any number
 of interrupted resumes, one uninterrupted resume publishes everything, each object renamed once.
*/
module PreparationResume {
  import opened Options
  import opened PreparationModel

  /** Objects that live at the same time are different files. */
  predicate WellFormed(p: Plan) {
    && (forall side :: side in Sides(p) ==> Distinct(p.reserved(side), p.inode(Reservation(side)), p.abandoned(side)))
    && (forall k :: k in Keys(p) ==> KeyWellFormed(p, k))
    && (forall i, j :: 0 <= i < j < |p.keys| ==> p.keys[i] != p.keys[j])
  }

  predicate Distinct(a: nat, b: nat, c: nat) { a != b && a != c && b != c }

  predicate KeyWellFormed(p: Plan, k: Key) {
    && (p.pre(k).Some? <==> p.replica(k).Some?)
    && !SameState(p.source(k), p.pre(k)) && !SameState(p.source(k), p.replica(k)) && !SameState(p.pre(k), p.replica(k))
  }

  /** How far one move has come; `Unrecorded` is a database file renamed but not yet journaled. */
  datatype Phase = Todo | Unrecorded | Done | Broken

  function PublishPhase(p: Plan, d: Disk, slot: Slot): Phase {
    if Is(Look(d, Staged(slot)), p.inode(slot)) && Look(d, Final(slot)) == None then Todo
    else if Look(d, Staged(slot)) == None && Is(Look(d, Final(slot)), p.inode(slot)) then Done else Broken
  }

  function UpdatePhase(p: Plan, d: Disk, post: map<Key, Obj>, k: Key): Phase {
    var staged, final := Look(d, Staged(Database(k))), Look(d, Final(Database(k)));
    if p.source(k) == None then if staged == None && final == p.pre(k) && k !in post then Done else Broken
    else if staged == p.source(k) && final == p.pre(k) && k !in post then Todo
    else if staged == None && SameState(final, p.source(k)) then
      if k !in post then Unrecorded else if final == Some(post[k]) then Done else Broken
    else Broken
  }

  function ConsumePhase(p: Plan, d: Disk, side: Side): Phase {
    var staged, final := Look(d, Staged(Reservation(side))), Look(d, Final(Reservation(side)));
    if Is(staged, p.inode(Reservation(side))) && Is(final, p.reserved(side)) then Todo
    else if staged == None && Is(final, p.inode(Reservation(side))) then Done else Broken
  }

  function PhaseOf(p: Plan, s: State, m: Move): Phase {
    match m
    case Publish(slot) => PublishPhase(p, s.disk, slot)
    case Reserve(side) => if Look(s.disk, Final(Reservation(side))).Some? then Done else Broken
    case Update(k) => UpdatePhase(p, s.disk, s.journal.post, k)
    case Consume(side) => ConsumePhase(p, s.disk, side)
    case Discard =>
      if Look(s.disk, Staged(Signing)) == None then Done
      else if Is(Look(s.disk, Staged(Signing)), p.inode(Signing)) then Todo else Broken
  }

  /** The copies that only a rollback uses are in place. */
  predicate Evidence(p: Plan, d: Disk) {
    && (forall side :: side in Sides(p) ==> Is(Look(d, Withdrawn(side)), p.abandoned(side)))
    && (forall k :: k in Keys(p) ==> Look(d, Replica(k)) == p.replica(k))
    && Is(Look(d, Stage), p.stage)
  }

  ghost predicate DoneBefore(p: Plan, s: State, ms: seq<Move>, i: nat) {
    forall j :: 0 <= j < i && j < |ms| ==> PhaseOf(p, s, ms[j]) == Done
  }

  /** A rename that is not journaled lies exactly at the pending checkpoint of an interrupted resume. */
  ghost predicate InWindow(p: Plan, s: State, ms: seq<Move>) {
    forall i :: 0 <= i < |ms| && PhaseOf(p, s, ms[i]) == Unrecorded ==>
      s.journal.step == At(Resuming, ms[i], false) && s.journal.action == Some(Resume) && DoneBefore(p, s, ms, i)
  }

  ghost predicate Sound(p: Plan, s: State, ms: seq<Move>) {
    && Evidence(p, s.disk)
    && forall m :: m in ms ==> PhaseOf(p, s, m) != Broken
  }

  /** Every state between the `staged` checkpoint and the terminal commit from which a resume goes on. */
  ghost predicate Resumable(p: Plan, s: State) {
    Sound(p, s, ResumeMoves(p)) && InWindow(p, s, ResumeMoves(p))
  }

  /** Everything is published and journaled. */
  ghost predicate Complete(p: Plan, s: State) {
    forall m :: m in ResumeMoves(p) ==> PhaseOf(p, s, m) == Done
  }

  // ------------------------------------------------------------------ frames

  predicate Sane(m: Move) {
    m.Publish? ==> m.slot.Session? || m.slot.Authority? || m.slot.Rollover? || m.slot.Pointer?
  }

  predicate Reaches(m: Move, x: Place) {
    match m
    case Publish(slot) => x == Staged(slot) || x == Final(slot)
    case Reserve(side) => x == Reserving(side) || x == Final(Reservation(side))
    case Update(k) => x == Staged(Database(k)) || x == Final(Database(k))
    case Consume(side) => x == Staged(Reservation(side)) || x == Final(Reservation(side))
    case Discard => x == Staged(Signing)
  }

  /** `t` differs from `s` only where the move reaches. */
  ghost predicate Touches(s: State, t: State, m: Move) {
    && (forall x :: !Reaches(m, x) ==> Look(t.disk, x) == Look(s.disk, x))
    && (forall k :: m != Update(k) ==> (k in t.journal.post <==> k in s.journal.post)
                                       && (k in s.journal.post ==> t.journal.post[k] == s.journal.post[k]))
  }

  lemma OthersKeep(p: Plan, s: State, t: State, m: Move, other: Move)
    requires Touches(s, t, m) && other != m && Sane(m) && Sane(other) && !m.Reserve?
    requires m.Consume? ==> Look(t.disk, Final(Reservation(m.side))).Some? && Look(s.disk, Final(Reservation(m.side))).Some?
    ensures PhaseOf(p, t, other) == PhaseOf(p, s, other)
  {
  }

  lemma EvidenceKeeps(p: Plan, s: State, t: State, m: Move)
    requires Evidence(p, s.disk) && Touches(s, t, m)
    ensures Evidence(p, t.disk)
  {
  }

  lemma MovesSane(p: Plan)
    ensures forall m :: m in ResumeMoves(p) ==> Sane(m)
    ensures forall m :: m in ForwardMoves(p) ==> Sane(m) && !m.Reserve?
  {
    forall m | m in Updates(Keys(p)) ensures m.Update? { }
  }

  /** All database files precede the removal of the signing stage. */
  lemma DiscardLate(p: Plan, i: nat, m: Move)
    requires i < |ResumeMoves(p)| && ResumeMoves(p)[i] == Discard && m in ResumeMoves(p) && m.Update?
    ensures m in ResumeMoves(p)[..i]
  {
    var head := [Publish(Session)] + Reserves(p) + Authorities(p);
    var middle := Updates(Keys(p));
    var tail := Consumes(p) + [Publish(Rollover), Publish(Pointer)];
    assert ResumeMoves(p) == head + middle + tail;
    assert m in middle;
    var j :| 0 <= j < |middle| && middle[j] == m;
    assert ResumeMoves(p)[|head| + j] == m;
    assert forall n :: 0 <= n < |head| + |middle| ==> ResumeMoves(p)[n] != Discard;
    assert |head| + j < i;
  }

  // --------------------------------------------------------------- one effect

  lemma CheckpointKeeps(p: Plan, s: State, who: Who, m: Move, done: bool, other: Move)
    ensures PhaseOf(p, Checkpoint(s, who, m, done), other) == PhaseOf(p, s, other)
  {
  }

  lemma TodoPossible(p: Plan, s: State, who: Who, m: Move)
    requires PhaseOf(p, s, m) == Todo
    ensures Possible(p, s, who, m) && !m.Reserve?
  {
  }

  /** The effect of a move that is to be done: a database file waits for its record, anything else is done. */
  lemma EffectAdvances(p: Plan, s: State, who: Who, m: Move)
    requires PhaseOf(p, s, m) == Todo && Sane(m)
    ensures Possible(p, s, who, m)
    ensures PhaseOf(p, Effect(p, s, who, m), m) == if m.Update? then Unrecorded else Done
    ensures Effect(p, s, who, m).journal == s.journal
  {
    TodoPossible(p, s, who, m);
  }

  /** The staged database files are gone when the signing stage is removed with them. */
  predicate Emptied(p: Plan, s: State) {
    forall k :: k in Keys(p) ==> Look(s.disk, Staged(Database(k))) == None
  }

  lemma EffectTouches(p: Plan, s: State, who: Who, m: Move)
    requires Possible(p, s, who, m) && Sane(m) && (m == Discard ==> Emptied(p, s))
    ensures Touches(s, Effect(p, s, who, m), m)
    ensures m.Consume? ==> Look(Effect(p, s, who, m).disk, Final(Reservation(m.side))).Some?
                           && Look(s.disk, Final(Reservation(m.side))).Some?
  {
  }

  lemma RecordAdvances(p: Plan, s: State, m: Move)
    requires PhaseOf(p, s, m) == Unrecorded || PhaseOf(p, s, m) == Done
    ensures PhaseOf(p, Recorded(s, m), m) == Done || (m.Update? && p.source(m.key) == None)
    ensures Touches(s, Recorded(s, m), m)
    ensures Recorded(s, m).disk == s.disk
  {
  }

  // -------------------------------------------------------------- a resume's move

  /** In the middle of a resume: the moves before `i` are done. */
  ghost predicate Midway(p: Plan, start: Journal, s: State, i: nat) {
    var ms := ResumeMoves(p);
    && i <= |ms| && Resumable(p, s) && DoneBefore(p, s, ms, i)
    && (forall k :: k in start.post ==> k in s.journal.post)
    && (forall j :: 0 <= j < |ms| && PhaseOf(p, s, ms[j]) == Unrecorded ==> start.step == At(Resuming, ms[j], false))
  }

  /** A resume carries a move out exactly when it is still to be done. */
  lemma DueExactly(p: Plan, start: Journal, s: State, m: Move)
    requires WellFormed(p) && m in ResumeMoves(p) && PhaseOf(p, s, m) != Broken
    requires forall k :: k in start.post ==> k in s.journal.post
    ensures PhaseOf(p, s, m) == Todo ==> Due(p, start, s, Resuming, m) && !Adopts(p, start, s, Resuming, m)
    ensures PhaseOf(p, s, m) == Done ==> !Due(p, start, s, Resuming, m)
    ensures PhaseOf(p, s, m) == Unrecorded ==> m.Update? && (start.step == At(Resuming, m, false) ==> Adopts(p, start, s, Resuming, m))
  {
    MovesSane(p);
    InPlan(p, m);
  }

  lemma InPlan(p: Plan, m: Move)
    requires m in ResumeMoves(p)
    ensures m.Update? ==> m.key in Keys(p)
    ensures m.Consume? || m.Reserve? ==> m.side in Sides(p)
    ensures m.Publish? && m.slot.Authority? ==> m.slot.side in Sides(p)
  {
    hide ResumeMoves;
    var n :| 0 <= n < |ResumeMoves(p)| && ResumeMoves(p)[n] == m;
    PartOf(p, n);
  }

  /** While something is to be done before it, no rename can be waiting for its record. */
  lemma NothingWaits(p: Plan, s: State, i: nat)
    requires Resumable(p, s) && i < |ResumeMoves(p)| && DoneBefore(p, s, ResumeMoves(p), i)
    requires PhaseOf(p, s, ResumeMoves(p)[i]) == Todo
    ensures forall m :: m in ResumeMoves(p) ==> PhaseOf(p, s, m) != Unrecorded
  {
  }

  /** A state in which nothing waits is resumable whatever the checkpoint says. */
  lemma SettledResumable(p: Plan, s: State, t: State)
    requires Resumable(p, s) && t.disk == s.disk && t.journal.post == s.journal.post
    requires forall m :: m in ResumeMoves(p) ==> PhaseOf(p, s, m) != Unrecorded
    ensures Resumable(p, t) && forall m :: m in ResumeMoves(p) ==> PhaseOf(p, t, m) == PhaseOf(p, s, m)
  {
    forall m ensures PhaseOf(p, t, m) == PhaseOf(p, s, m) { }
  }

  predicate Moved(phase: Phase) { phase == Done || phase == Unrecorded }

  function FinalOf(m: Move): Place {
    match m
    case Publish(slot) => Final(slot)
    case Reserve(side) => Final(Reservation(side))
    case Update(k) => Final(Database(k))
    case Consume(side) => Final(Reservation(side))
    case Discard => Staged(Signing)
  }

  /** What was renamed before stays exactly the same object, change time included: it is not renamed again. */
  ghost predicate Stands(p: Plan, s: State, t: State) {
    forall m :: m in ForwardMoves(p) && Moved(PhaseOf(p, s, m)) ==>
      Moved(PhaseOf(p, t, m)) && Look(t.disk, FinalOf(m)) == Look(s.disk, FinalOf(m))
  }

  lemma StandsTrans(p: Plan, s: State, t: State, u: State)
    requires Stands(p, s, t) && Stands(p, t, u)
    ensures Stands(p, s, u)
  {
  }

  lemma CheckpointStands(p: Plan, s: State, t: State)
    requires t.disk == s.disk && t.journal.post == s.journal.post
    ensures Stands(p, s, t)
  {
    forall m ensures PhaseOf(p, t, m) == PhaseOf(p, s, m) { }
  }

  lemma OneStands(p: Plan, s: State, t: State, m: Move)
    requires Touches(s, t, m) && Sane(m) && !m.Reserve?
    requires m.Consume? ==> Look(t.disk, Final(Reservation(m.side))).Some? && Look(s.disk, Final(Reservation(m.side))).Some?
    requires Moved(PhaseOf(p, t, m)) && (Moved(PhaseOf(p, s, m)) ==> Look(t.disk, FinalOf(m)) == Look(s.disk, FinalOf(m)))
    ensures Stands(p, s, t)
  {
    hide PhaseOf, Touches;
    MovesSane(p);
    forall other | other in ForwardMoves(p) && Moved(PhaseOf(p, s, other))
      ensures Moved(PhaseOf(p, t, other)) && Look(t.disk, FinalOf(other)) == Look(s.disk, FinalOf(other))
    {
      if other != m {
        OthersKeep(p, s, t, m, other);
        FinalUntouched(s, t, m, other);
      }
    }
  }

  lemma FinalUntouched(s: State, t: State, m: Move, other: Move)
    requires Touches(s, t, m) && other != m && Sane(m) && Sane(other) && !m.Reserve? && !other.Reserve?
    ensures Look(t.disk, FinalOf(other)) == Look(s.disk, FinalOf(other))
  {
    assert !Reaches(m, FinalOf(other));
  }

  lemma DoneEmpties(p: Plan, s: State, i: nat)
    requires i < |ResumeMoves(p)| && ResumeMoves(p)[i] == Discard && DoneBefore(p, s, ResumeMoves(p), i)
    ensures Emptied(p, s)
  {
    hide ResumeMoves;
    forall k | k in Keys(p) ensures Look(s.disk, Staged(Database(k))) == None {
      UpdateInPlan(p, k);
      DiscardLate(p, i, Update(k));
      var j :| 0 <= j < i && ResumeMoves(p)[..i][j] == Update(k);
      assert PhaseOf(p, s, ResumeMoves(p)[j]) == Done;
    }
  }

  lemma UpdateInPlan(p: Plan, k: Key)
    requires k in Keys(p)
    ensures Update(k) in ResumeMoves(p) && Update(k) in ForwardMoves(p)
  {
    var j :| 0 <= j < |Keys(p)| && Keys(p)[j] == k;
    var middle := Updates(Keys(p));
    assert middle[j] == Update(k);
    assert Update(k) in middle;
  }

  /** Carrying out one move changes its own phase and no other. */
  lemma EffectStep(p: Plan, s: State, who: Who, ms: seq<Move>, m: Move)
    requires Sound(p, s, ms) && m in ms && PhaseOf(p, s, m) == Todo && (forall o :: o in ms ==> Sane(o))
    requires m == Discard ==> Emptied(p, s)
    ensures Possible(p, s, who, m)
    ensures var t := Effect(p, s, who, m);
            && Sound(p, t, ms) && t.journal == s.journal && Stands(p, s, t)
            && (forall o :: o in ms && o != m ==> PhaseOf(p, t, o) == PhaseOf(p, s, o))
            && PhaseOf(p, t, m) == if m.Update? then Unrecorded else Done
  {
    hide PhaseOf, Evidence, Effect, Possible, Touches, Stands, Emptied;
    TodoPossible(p, s, who, m);
    EffectAdvances(p, s, who, m);
    EffectTouches(p, s, who, m);
    var t := Effect(p, s, who, m);
    EvidenceKeeps(p, s, t, m);
    forall o | o in ms && o != m ensures PhaseOf(p, t, o) == PhaseOf(p, s, o) { OthersKeep(p, s, t, m, o); }
    OneStands(p, s, t, m);
  }

  /** Journaling a rename settles it. */
  lemma RecordStep(p: Plan, s: State, ms: seq<Move>, m: Move)
    requires Sound(p, s, ms) && m in ms && Moved(PhaseOf(p, s, m)) && (forall o :: o in ms ==> Sane(o)) && !m.Reserve?
    requires m.Update? ==> p.source(m.key).Some?
    ensures var t := Recorded(s, m);
            && Sound(p, t, ms) && t.disk == s.disk && Stands(p, s, t)
            && (forall o :: o in ms && o != m ==> PhaseOf(p, t, o) == PhaseOf(p, s, o))
            && PhaseOf(p, t, m) == Done
  {
    hide PhaseOf, Evidence, Touches, Stands;
    var t := Recorded(s, m);
    RecordAdvances(p, s, m);
    EvidenceKeeps(p, s, t, m);
    if m.Consume? { ConsumedPresent(p, s, m); }
    forall o | o in ms && o != m ensures PhaseOf(p, t, o) == PhaseOf(p, s, o) { OthersKeep(p, s, t, m, o); }
    OneStands(p, s, t, m);
  }

  lemma ConsumedPresent(p: Plan, s: State, m: Move)
    requires PhaseOf(p, s, m) != Broken && m.Consume?
    ensures Look(s.disk, Final(Reservation(m.side))).Some?
  {
  }

  // -------------------------------------------------------------------- runs

  ghost predicate Settled(p: Plan, s: State, ms: seq<Move>) {
    forall m :: m in ms ==> PhaseOf(p, s, m) != Unrecorded
  }

  lemma SettledIsResumable(p: Plan, s: State)
    requires Sound(p, s, ResumeMoves(p)) && Settled(p, s, ResumeMoves(p))
    ensures Resumable(p, s)
  {
  }

  /** Right after the rename of a database file the journal still says `pending`. */
  lemma WaitingIsResumable(p: Plan, s: State, m: Move, i: nat)
    requires WellFormed(p) && Sound(p, s, ResumeMoves(p)) && i < |ResumeMoves(p)| && ResumeMoves(p)[i] == m
    requires DoneBefore(p, s, ResumeMoves(p), i)
    requires forall o :: o in ResumeMoves(p) && o != m ==> PhaseOf(p, s, o) != Unrecorded
    requires s.journal.step == At(Resuming, m, false) && s.journal.action == Some(Resume)
    ensures Resumable(p, s)
  {
    hide PhaseOf, ResumeMoves;
    var ms := ResumeMoves(p);
    forall j | 0 <= j < |ms| && PhaseOf(p, s, ms[j]) == Unrecorded ensures DoneBefore(p, s, ms, j) && ms[j] == m {
      assert ms[j] == m;
      UnrecordedUpdate(p, s, m);
      UpdateOnce(p, i, j);
    }
  }

  lemma UnrecordedUpdate(p: Plan, s: State, m: Move)
    requires PhaseOf(p, s, m) == Unrecorded
    ensures m.Update?
  {
  }

  function BeforeUpdates(p: Plan): seq<Move> {
    [Publish(Session)] + Reserves(p) + Authorities(p)
  }

  function AfterUpdates(p: Plan): seq<Move> {
    Consumes(p) + [Publish(Rollover), Publish(Pointer)]
  }

  /** The three parts of the list of moves. */
  lemma PartOf(p: Plan, n: nat)
    requires n < |ResumeMoves(p)|
    ensures var head, middle := |BeforeUpdates(p)|, |Keys(p)|;
            && |ResumeMoves(p)| == head + middle + |AfterUpdates(p)|
            && ResumeMoves(p)[n] == if n < head then BeforeUpdates(p)[n]
                                    else if n < head + middle then Update(Keys(p)[n - head])
                                    else AfterUpdates(p)[n - head - middle]
  {
    var middle := Updates(Keys(p));
    assert ResumeMoves(p) == BeforeUpdates(p) + middle + AfterUpdates(p);
  }

  lemma UpdateOnce(p: Plan, i: nat, j: nat)
    requires WellFormed(p) && i < |ResumeMoves(p)| && j < |ResumeMoves(p)|
    requires ResumeMoves(p)[i] == ResumeMoves(p)[j] && ResumeMoves(p)[i].Update?
    ensures i == j
  {
    hide ResumeMoves;
    PartOf(p, i);
    PartOf(p, j);
  }

  /** One move of a resume: it never fails, and wherever it is killed another resume can go on. */
  lemma MoveKeeps(p: Plan, start: Journal, s: State, i: nat, fuel: nat)
    requires WellFormed(p) && i < |ResumeMoves(p)| && Midway(p, start, s, i)
    ensures var r := RunMove(p, start, s, Resuming, ResumeMoves(p)[i], fuel);
            && r.status != Died && Resumable(p, r.state) && Stands(p, s, r.state)
            && (fuel >= 3 ==> r.status == Running)
            && (r.status == Running ==> Midway(p, start, r.state, i + 1) && r.fuel + 3 >= fuel)
  {
    hide PhaseOf, ResumeMoves, Effect, Possible, Due, Adopts, Evidence, Stands, Recorded;
    var ms := ResumeMoves(p);
    var m := ms[i];
    var who := Resuming;
    MovesSane(p);
    DueExactly(p, start, s, m);
    CheckpointStands(p, s, s);
    if Adopts(p, start, s, who, m) {
      AdoptionKeeps(p, start, s, i);
    } else if PhaseOf(p, s, m) == Todo {
      NothingWaits(p, s, i);
      var pending := Checkpoint(s, who, m, false);
      SettledResumable(p, s, pending);
      CheckpointStands(p, s, pending);
      TodoPossible(p, pending, who, m);
      if fuel >= 2 { TodoKeeps(p, start, s, i); }
    } else {
      assert DoneBefore(p, s, ms, i + 1);
    }
  }

  lemma AdoptionKeeps(p: Plan, start: Journal, s: State, i: nat)
    requires WellFormed(p) && i < |ResumeMoves(p)| && Midway(p, start, s, i)
    requires Adopts(p, start, s, Resuming, ResumeMoves(p)[i])
    ensures var m := ResumeMoves(p)[i];
            var t := Checkpoint(Recorded(s, m), Resuming, m, true);
            Resumable(p, t) && Stands(p, s, t) && Midway(p, start, t, i + 1)
  {
    hide ResumeMoves, Evidence, Stands, PhaseOf, DoneBefore;
    var ms, m := ResumeMoves(p), ResumeMoves(p)[i];
    var recorded := Recorded(s, m);
    var t := Checkpoint(recorded, Resuming, m, true);
    MovesSane(p);
    AdoptedMoved(p, start, s, m);
    RecordStep(p, s, ms, m);
    forall o ensures PhaseOf(p, t, o) == PhaseOf(p, recorded, o) { CheckpointKeeps(p, recorded, Resuming, m, true, o); }
    CheckpointStands(p, recorded, t);
    StandsTrans(p, s, recorded, t);
    SettledByOne(p, start, s, t, i);
  }

  lemma AdoptedMoved(p: Plan, start: Journal, s: State, m: Move)
    requires WellFormed(p) && m in ResumeMoves(p) && PhaseOf(p, s, m) != Broken
    requires Adopts(p, start, s, Resuming, m)
    ensures Moved(PhaseOf(p, s, m)) && m.Update? && p.source(m.key).Some?
  {
    InPlan(p, m);
  }

  /** Once move `i` is settled nothing waits, and the run is one move further. */
  lemma SettledByOne(p: Plan, start: Journal, s: State, t: State, i: nat)
    requires i < |ResumeMoves(p)| && Midway(p, start, s, i) && Sound(p, t, ResumeMoves(p))
    requires PhaseOf(p, t, ResumeMoves(p)[i]) == Done
    requires forall o :: o in ResumeMoves(p) && o != ResumeMoves(p)[i] ==> PhaseOf(p, t, o) == PhaseOf(p, s, o)
    requires forall o :: o in ResumeMoves(p) && o != ResumeMoves(p)[i] ==> PhaseOf(p, s, o) != Unrecorded || start.step == At(Resuming, ResumeMoves(p)[i], false)
    requires forall k :: k in s.journal.post ==> k in t.journal.post
    ensures Resumable(p, t) && Midway(p, start, t, i + 1)
  {
    hide ResumeMoves, PhaseOf, Evidence;
    var ms := ResumeMoves(p);
    forall j | 0 <= j < |ms| ensures ms[j] != ms[i] ==> PhaseOf(p, s, ms[j]) != Unrecorded { }
    SettledIsResumable(p, t);
    forall j | 0 <= j < i + 1 ensures PhaseOf(p, t, ms[j]) == Done {
      if ms[j] != ms[i] { assert PhaseOf(p, s, ms[j]) == Done; }
    }
  }

  lemma TodoKeeps(p: Plan, start: Journal, s: State, i: nat)
    requires WellFormed(p) && i < |ResumeMoves(p)| && Midway(p, start, s, i) && PhaseOf(p, s, ResumeMoves(p)[i]) == Todo
    ensures var m, who := ResumeMoves(p)[i], Resuming;
            var pending := Checkpoint(s, who, m, false);
            && Possible(p, pending, who, m)
            && var moved := Effect(p, pending, who, m);
               var t := Checkpoint(Recorded(moved, m), who, m, true);
               && Resumable(p, moved) && Stands(p, s, moved)
               && Resumable(p, t) && Stands(p, s, t) && Midway(p, start, t, i + 1)
  {
    hide ResumeMoves, PhaseOf, Effect, Possible, Evidence, Stands, Emptied, Recorded;
    var ms, m, who := ResumeMoves(p), ResumeMoves(p)[i], Resuming;
    MovesSane(p);
    NothingWaits(p, s, i);
    var pending := Checkpoint(s, who, m, false);
    SettledResumable(p, s, pending);
    CheckpointStands(p, s, pending);
    if m == Discard { DoneEmpties(p, s, i); }
    CheckpointEmptied(p, s, who, m);
    EffectStep(p, pending, who, ms, m);
    var moved := Effect(p, pending, who, m);
    StandsTrans(p, s, pending, moved);
    EffectResumable(p, pending, moved, m, i);
    var recorded := Recorded(moved, m);
    TodoSourced(p, s, m);
    RecordStep(p, moved, ms, m);
    var t := Checkpoint(recorded, who, m, true);
    forall o ensures PhaseOf(p, t, o) == PhaseOf(p, recorded, o) { CheckpointKeeps(p, recorded, who, m, true, o); }
    CheckpointStands(p, recorded, t);
    StandsTrans(p, s, moved, recorded);
    StandsTrans(p, s, recorded, t);
    RecordedGrows(moved, m);
    SettledByOne(p, start, s, t, i);
  }

  lemma CheckpointEmptied(p: Plan, s: State, who: Who, m: Move)
    ensures Emptied(p, s) ==> Emptied(p, Checkpoint(s, who, m, false))
  {
  }

  lemma TodoSourced(p: Plan, s: State, m: Move)
    requires PhaseOf(p, s, m) == Todo
    ensures (m.Update? ==> p.source(m.key).Some?) && !m.Reserve?
  {
  }

  lemma RecordedGrows(s: State, m: Move)
    ensures forall k :: k in s.journal.post ==> k in Recorded(s, m).journal.post
  {
  }

  lemma EffectResumable(p: Plan, s: State, t: State, m: Move, i: nat)
    requires WellFormed(p) && i < |ResumeMoves(p)| && ResumeMoves(p)[i] == m && Sound(p, t, ResumeMoves(p))
    requires DoneBefore(p, s, ResumeMoves(p), i) && Settled(p, s, ResumeMoves(p)) && PhaseOf(p, s, m) != Done
    requires forall o :: o in ResumeMoves(p) && o != m ==> PhaseOf(p, t, o) == PhaseOf(p, s, o)
    requires t.journal.step == At(Resuming, m, false) && t.journal.action == Some(Resume)
    ensures Resumable(p, t)
  {
    hide ResumeMoves, PhaseOf, Evidence;
    var ms := ResumeMoves(p);
    forall j | 0 <= j < i ensures PhaseOf(p, t, ms[j]) == Done { assert ms[j] != m; }
    WaitingIsResumable(p, t, m, i);
  }

  /** A whole resume, from its move `i` on. */
  lemma {:induction false} MovesKeep(p: Plan, start: Journal, s: State, i: nat, fuel: nat)
    requires WellFormed(p) && i <= |ResumeMoves(p)| && Midway(p, start, s, i)
    ensures var r := RunMoves(p, start, s, Resuming, ResumeMoves(p)[i..], fuel);
            && r.status != Died && Resumable(p, r.state) && Stands(p, s, r.state)
            && (r.status == Running ==> Complete(p, r.state))
            && (fuel >= 3 * (|ResumeMoves(p)| - i) ==> r.status == Running)
    decreases |ResumeMoves(p)| - i
  {
    hide ResumeMoves, RunMove, PhaseOf, Stands, Resumable;
    var ms := ResumeMoves(p);
    if i < |ms| {
      MoveKeeps(p, start, s, i, fuel);
      var r := RunMove(p, start, s, Resuming, ms[i], fuel);
      assert ms[i..][1..] == ms[i + 1..];
      if r.status == Running {
        MovesKeep(p, start, r.state, i + 1, r.fuel);
        StandsTrans(p, s, r.state, RunMoves(p, start, r.state, Resuming, ms[i + 1..], r.fuel).state);
      }
    } else {
      CheckpointStands(p, s, s);
    }
  }

  /** The preflight accepts every resumable state. */
  lemma ResumableAllowed(p: Plan, s: State)
    requires WellFormed(p) && Resumable(p, s)
    ensures ResumeAllowed(p, s)
  {
    var ms := ResumeMoves(p);
    hide ResumeMoves;
    assert forall m :: m in ms ==> PhaseOf(p, s, m) != Broken;
    assert Publish(Session) in ms && Publish(Rollover) in ms && Publish(Pointer) in ms by { FixedMoves(p); }
    forall side | side in Sides(p) ensures ReservationAllowed(p, s, side) && Located(p, s, Authority(side)) { SideMoves(p, side); }
    forall k | k in Keys(p) ensures DatabaseAllowed(p, s, Resume, k) {
      UpdateInPlan(p, k);
      KeyAllowed(p, s, k);
    }
    if p.kind == Intermediate { FixedMoves(p); }
  }

  lemma FixedMoves(p: Plan)
    ensures Publish(Session) in ResumeMoves(p) && Publish(Rollover) in ResumeMoves(p) && Publish(Pointer) in ResumeMoves(p)
    ensures p.kind == Intermediate ==> Discard in ResumeMoves(p)
  {
    var ms := ResumeMoves(p);
    assert ms[0] == Publish(Session) && ms[|ms| - 2] == Publish(Rollover) && ms[|ms| - 1] == Publish(Pointer);
    assert p.kind == Intermediate ==> ms[|ms| - 3] == Discard;
  }

  lemma SideMoves(p: Plan, side: Side)
    requires side in Sides(p)
    ensures Publish(Authority(side)) in ResumeMoves(p) && Consume(side) in ResumeMoves(p)
  {
    assert Publish(Authority(side)) in Authorities(p) && Consume(side) in Consumes(p);
  }

  lemma KeyAllowed(p: Plan, s: State, k: Key)
    requires WellFormed(p) && k in Keys(p) && Update(k) in ResumeMoves(p) && Resumable(p, s)
    ensures DatabaseAllowed(p, s, Resume, k)
  {
    hide ResumeMoves;
    var ms := ResumeMoves(p);
    var i :| 0 <= i < |ms| && ms[i] == Update(k);
    assert PhaseOf(p, s, ms[i]) != Broken;
    assert KeyWellFormed(p, k);
  }

  lemma ResumeKeeps(p: Plan, s: State, fuel: nat)
    requires WellFormed(p) && Resumable(p, s)
    ensures var r := RunResume(p, s, fuel);
            && r.status != Died && Resumable(p, r.state) && Stands(p, s, r.state)
            && (r.status == Running ==> Complete(p, r.state))
            && (fuel >= 3 * |ResumeMoves(p)| ==> r.status == Running)
  {
    hide ResumeMoves, PhaseOf, Stands, ResumeAllowed, Evidence;
    ResumableAllowed(p, s);
    assert ResumeMoves(p)[0..] == ResumeMoves(p);
    MidwayAtStart(p, s);
    MovesKeep(p, s.journal, s, 0, fuel);
  }

  lemma MidwayAtStart(p: Plan, s: State)
    requires Resumable(p, s)
    ensures Midway(p, s.journal, s, 0)
  {
    hide ResumeMoves, PhaseOf, Evidence;
  }

  /** After any interrupted resumes, an uninterrupted one completes, and no rename is ever repeated. */
  lemma {:induction false} ResumesComplete(p: Plan, s: State, fuels: seq<nat>, fuel: nat)
    requires WellFormed(p) && Resumable(p, s) && fuel >= 3 * |ResumeMoves(p)|
    ensures var t := Resumes(p, s, fuels);
            var r := RunResume(p, t, fuel);
            && Resumable(p, t) && r.status == Running && Complete(p, r.state)
            && Stands(p, s, t) && Stands(p, s, r.state)
    decreases |fuels|
  {
    hide Resumable, Complete, Stands, RunResume;
    if fuels == [] {
      ResumeKeeps(p, s, fuel);
      CheckpointStands(p, s, s);
    } else {
      ResumeKeeps(p, s, fuels[0]);
      var next := RunResume(p, s, fuels[0]).state;
      ResumesComplete(p, next, fuels[1..], fuel);
      var t := Resumes(p, s, fuels);
      StandsTrans(p, s, next, t);
      StandsTrans(p, s, next, RunResume(p, t, fuel).state);
    }
  }
}
