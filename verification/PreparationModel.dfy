/**
 A rollover preparation after its candidates are staged: what lies on disk, what the journal records,
 the publishing run, and the recovery that continues it.

 Trees, reservations and the pointer are recognized by a state that survives a rename (`inode`). Root
 database files are recorded by full identity, which a rename changes (`stamp`, the change time).
*/
module PreparationModel {
  import opened Options

  type Key = string

  datatype Side = Root | Intermediate
  datatype Slot = Session | Authority(side: Side) | Database(key: Key) | Reservation(side: Side) | Signing | Rollover | Pointer

  /** `Staged` and `Final` are the two paths of a slot; the others lie in the transaction. `Stage` is its directory. */
  datatype Place =
    | Stage
    | Staged(slot: Slot)
    | Final(slot: Slot)
    | Reserving(side: Side)
    | Withdrawn(side: Side)
    | Replica(key: Key)

  datatype Obj = Obj(inode: nat, stamp: nat)
  type Disk = map<Place, Obj>

  datatype Action = Resume | Rollback
  datatype Who = Forward | Resuming

  datatype Move =
    | Publish(slot: Slot)
    | Reserve(side: Side)
    | Update(key: Key)
    | Consume(side: Side)
    | Discard

  /** The moves of a rollback. */
  datatype Undo =
    | Withdraw(slot: Slot)
    | Restore(key: Key)
    | Drop(slot: Slot)
    | DropStage
    | Abandon(side: Side)

  datatype Step = Prepared | At(who: Who, move: Move, done: bool) | Undoing(undo: Undo, finished: bool)

  /** What the journal records once and for all. `inode` gives the states of the published objects. */
  datatype Plan = Plan(
    kind: Side, keys: seq<Key>, stage: nat,
    inode: Slot -> nat, reserved: Side -> nat, abandoned: Side -> nat,
    pre: Key -> Option<Obj>, source: Key -> Option<Obj>, replica: Key -> Option<Obj>)

  /** What the journal records as it goes: the step, and the identities of the files it published or restored. */
  datatype Journal = Journal(step: Step, action: Option<Action>, post: map<Key, Obj>, restored: map<Key, Obj>)

  datatype State = State(disk: Disk, journal: Journal, clock: nat)

  function Look(d: Disk, p: Place): Option<Obj> {
    if p in d then Some(d[p]) else None
  }

  predicate Is(o: Option<Obj>, inode: nat) {
    o.Some? && o.value.inode == inode
  }

  predicate SameState(o: Option<Obj>, e: Option<Obj>) {
    o.Some? && e.Some? && o.value.inode == e.value.inode
  }

  function PostOf(p: Plan, j: Journal, k: Key): Option<Obj> {
    if k in j.post then Some(j.post[k]) else if p.source(k).Some? then p.source(k) else p.pre(k)
  }

  function RestoredOf(p: Plan, j: Journal, k: Key): Option<Obj> {
    if k in j.restored then Some(j.restored[k]) else p.replica(k)
  }

  function Sides(p: Plan): seq<Side> {
    if p.kind == Root then [Root, Intermediate] else [Intermediate]
  }

  /** A root preparation touches no database. */
  function Keys(p: Plan): seq<Key> {
    if p.kind == Root then [] else p.keys
  }

  // ------------------------------------------------------------------ moves

  function Updates(keys: seq<Key>): (ms: seq<Move>)
    ensures |ms| == |keys| && forall i :: 0 <= i < |keys| ==> ms[i] == Update(keys[i])
  {
    if keys == [] then [] else [Update(keys[0])] + Updates(keys[1..])
  }

  function Authorities(p: Plan): seq<Move> {
    if p.kind == Root then [Publish(Authority(Root)), Publish(Authority(Intermediate))] else [Publish(Authority(Intermediate))]
  }

  function Reserves(p: Plan): seq<Move> {
    if p.kind == Root then [Reserve(Root), Reserve(Intermediate)] else [Reserve(Intermediate)]
  }

  function Consumes(p: Plan): seq<Move> {
    if p.kind == Root then [Consume(Root), Consume(Intermediate)] else [Consume(Intermediate), Discard]
  }

  function ForwardMoves(p: Plan): seq<Move> {
    Authorities(p) + Updates(Keys(p)) + Consumes(p) + [Publish(Rollover), Publish(Pointer)]
  }

  function ResumeMoves(p: Plan): seq<Move> {
    [Publish(Session)] + Reserves(p) + ForwardMoves(p)
  }

  /** Whether a run carries the move out. `start` is the journal as the run loaded it. */
  predicate Due(p: Plan, start: Journal, s: State, who: Who, m: Move) {
    match m
    case Publish(slot) =>
      who == Forward
      || (if slot == Session || slot == Pointer then Look(s.disk, Final(slot)) == None else Look(s.disk, Staged(slot)).Some?)
    case Reserve(side) => Look(s.disk, Final(Reservation(side))) == None
    case Update(k) =>
      if who == Forward then Look(s.disk, Staged(Database(k))).Some?
      else Look(s.disk, Final(Database(k))) == p.pre(k) && p.pre(k) != PostOf(p, start, k)
    case Consume(side) => who == Forward || Is(Look(s.disk, Final(Reservation(side))), p.reserved(side))
    case Discard => who == Forward || Look(s.disk, Staged(Signing)).Some?
  }

  /** The run finds that the interrupted one renamed this file without recording it. */
  predicate Adopts(p: Plan, start: Journal, s: State, who: Who, m: Move) {
    && who == Resuming && m.Update?
    && SameState(Look(s.disk, Final(Database(m.key))), p.source(m.key))
    && start.step == At(Resuming, m, false)
  }

  /** The exact checks of the operation itself. */
  predicate Possible(p: Plan, s: State, who: Who, m: Move) {
    match m
    case Publish(slot) => Is(Look(s.disk, Staged(slot)), p.inode(slot)) && Look(s.disk, Final(slot)) == None
    case Reserve(side) => Is(Look(s.disk, Reserving(side)), p.reserved(side)) && Look(s.disk, Final(Reservation(side))) == None
    case Update(k) =>
      Look(s.disk, Staged(Database(k))).Some? && Look(s.disk, Staged(Database(k))) == p.source(k)
      && Look(s.disk, Final(Database(k))) == p.pre(k)
    case Consume(side) =>
      && Is(Look(s.disk, Staged(Reservation(side))), p.inode(Reservation(side)))
      && (if who == Forward then Look(s.disk, Final(Reservation(side))).Some?
          else Is(Look(s.disk, Final(Reservation(side))), p.reserved(side)))
    case Discard => Is(Look(s.disk, Staged(Signing)), p.inode(Signing))
  }

  /** A rename gives the object a new change time. */
  function Renamed(s: State, from: Place, to: Place): State
    requires from in s.disk
  {
    s.(disk := (s.disk - {from})[to := s.disk[from].(stamp := s.clock)], clock := s.clock + 1)
  }

  /** The signing stage is a directory that also holds the staged database files. */
  function WithoutSigning(p: Plan, d: Disk): Disk {
    map x | x in d && x != Staged(Signing) && !(x.Staged? && x.slot.Database? && x.slot.key in Keys(p)) :: d[x]
  }

  function Effect(p: Plan, s: State, who: Who, m: Move): State
    requires Possible(p, s, who, m)
  {
    match m
    case Publish(slot) => Renamed(s, Staged(slot), Final(slot))
    case Reserve(side) => Renamed(s, Reserving(side), Final(Reservation(side)))
    case Update(k) => Renamed(s, Staged(Database(k)), Final(Database(k)))
    case Consume(side) => Renamed(s, Staged(Reservation(side)), Final(Reservation(side)))
    case Discard => s.(disk := WithoutSigning(p, s.disk))
  }

  function Checkpoint(s: State, who: Who, m: Move, done: bool): State {
    s.(journal := s.journal.(step := At(who, m, done),
                             action := if who == Resuming then Some(Resume) else s.journal.action))
  }

  /** The journaled identity of a database file becomes the one the file has now. */
  function Recorded(s: State, m: Move): State {
    if m.Update? && Final(Database(m.key)) in s.disk
    then s.(journal := s.journal.(post := s.journal.post[m.key := s.disk[Final(Database(m.key))]]))
    else s
  }

  // ------------------------------------------------------------------- runs

  datatype Status = Running | Crashed | Died
  datatype Run = Run(state: State, fuel: nat, status: Status)

  /** One move; the process is killed when its fuel, counted in writes, is used up. */
  function RunMove(p: Plan, start: Journal, s: State, who: Who, m: Move, fuel: nat): Run {
    if Adopts(p, start, s, who, m) then
      if fuel == 0 then Run(s, 0, Crashed)
      else Run(Checkpoint(Recorded(s, m), who, m, true), fuel - 1, Running)
    else if !Due(p, start, s, who, m) then Run(s, fuel, Running)
    else if fuel == 0 then Run(s, 0, Crashed)
    else
      var pending := Checkpoint(s, who, m, false);
      if !Possible(p, pending, who, m) then Run(pending, fuel - 1, Died)
      else if fuel == 1 then Run(pending, 0, Crashed)
      else
        var moved := Effect(p, pending, who, m);
        if fuel == 2 then Run(moved, 0, Crashed)
        else Run(Checkpoint(Recorded(moved, m), who, m, true), fuel - 3, Running)
  }

  function RunMoves(p: Plan, start: Journal, s: State, who: Who, moves: seq<Move>, fuel: nat): Run
    decreases |moves|
  {
    if moves == [] then Run(s, fuel, Running)
    else
      var r := RunMove(p, start, s, who, moves[0], fuel);
      if r.status != Running then r else RunMoves(p, start, r.state, who, moves[1..], r.fuel)
  }

  function RunForward(p: Plan, s: State, fuel: nat): Run {
    RunMoves(p, s.journal, s, Forward, ForwardMoves(p), fuel)
  }

  // -------------------------------------------------------------- preflight

  predicate SessionAllowed(p: Plan, s: State) {
    Look(s.disk, Final(Session)) == None || Is(Look(s.disk, Final(Session)), p.inode(Session))
  }

  predicate ReservationAllowed(p: Plan, s: State, side: Side) {
    var r := Look(s.disk, Final(Reservation(side)));
    && (r == None || Is(r, p.reserved(side)) || Is(r, p.inode(Reservation(side))) || Is(r, p.abandoned(side)))
    && (Is(r, p.abandoned(side)) || Is(Look(s.disk, Withdrawn(side)), p.abandoned(side)))
  }

  predicate Located(p: Plan, s: State, slot: Slot) {
    Is(Look(s.disk, Staged(slot)), p.inode(slot)) != Is(Look(s.disk, Final(slot)), p.inode(slot))
  }

  /** A file renamed by the interrupted resume, at the one checkpoint where that is possible. */
  predicate ResumeWindow(p: Plan, j: Journal, action: Action, k: Key) {
    action == Resume && j.action == Some(Resume) && j.step == At(Resuming, Update(k), false) && p.source(k).Some?
  }

  predicate RollbackWindow(p: Plan, j: Journal, action: Action, k: Key) {
    action == Rollback && j.action == Some(Rollback) && j.step == Undoing(Restore(k), false) && p.replica(k).Some?
  }

  predicate DatabaseAllowed(p: Plan, s: State, action: Action, k: Key) {
    var current := Look(s.disk, Final(Database(k)));
    var adopted := ResumeWindow(p, s.journal, action, k) && SameState(current, p.source(k));
    var returned := RollbackWindow(p, s.journal, action, k) && SameState(current, p.replica(k));
    && (current == p.pre(k) || current == PostOf(p, s.journal, k) || current == RestoredOf(p, s.journal, k) || adopted || returned)
    && (current == PostOf(p, s.journal, k) && p.pre(k).Some? ==> Look(s.disk, Replica(k)) == p.replica(k))
    && (current == p.pre(k) && p.source(k).Some? ==> Look(s.disk, Staged(Database(k))) == p.source(k))
    && (adopted ==> Look(s.disk, Staged(Database(k))) == None)
    && (returned ==> Look(s.disk, Replica(k)) == None)
  }

  predicate StageAllowed(p: Plan, s: State) {
    Look(s.disk, Stage) == None || Is(Look(s.disk, Stage), p.stage)
  }

  predicate PointerAllowed(p: Plan, s: State) {
    Look(s.disk, Final(Pointer)) == None || Is(Look(s.disk, Final(Pointer)), p.inode(Pointer))
  }

  predicate SigningAllowed(p: Plan, s: State) {
    Look(s.disk, Staged(Signing)) == None || Is(Look(s.disk, Staged(Signing)), p.inode(Signing))
  }

  /** The checks before a resume changes anything. */
  predicate ResumeAllowed(p: Plan, s: State) {
    && SessionAllowed(p, s)
    && (forall side :: side in Sides(p) ==> ReservationAllowed(p, s, side) && Located(p, s, Authority(side)))
    && Located(p, s, Rollover)
    && PointerAllowed(p, s) && StageAllowed(p, s)
    && (forall k :: k in Keys(p) ==> DatabaseAllowed(p, s, Resume, k))
    && (p.kind == Intermediate ==> SigningAllowed(p, s))
  }

  function RunResume(p: Plan, s: State, fuel: nat): Run {
    if !ResumeAllowed(p, s) then Run(s, fuel, Died)
    else RunMoves(p, s.journal, s, Resuming, ResumeMoves(p), fuel)
  }

  /** Resumes one after the other, each killed after some number of writes. */
  function Resumes(p: Plan, s: State, fuels: seq<nat>): State
    decreases |fuels|
  {
    if fuels == [] then s else Resumes(p, RunResume(p, s, fuels[0]).state, fuels[1..])
  }
}
