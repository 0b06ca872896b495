/**
 One preparation after the other on one directory of reservations. A generation whose reservation was ever published
 is never given out again: the allocator goes above every reservation, and no run of a preparation removes one.
*/
module GenerationHistory {
  import opened Options
  import opened Generations
  import P = PreparationModel
  import R = PreparationRollback

  /** A preparation under way: the IDs it was given and what its runs have made of the disk. */
  datatype Preparation = Preparation(plan: P.Plan, root: Id, intermediate: Id, state: P.State)
  {
    function Name(side: P.Side): Id {
      if side == P.Root then root else intermediate
    }
  }

  /** What earlier preparations have left, and the one under way. */
  datatype World = World(reservations: set<Id>, authorities: set<Id>, current: Option<Preparation>)

  function OwnReservations(o: Preparation): set<Id> {
    set side | side in P.Sides(o.plan) && R.ReservedFor(o.state, side) :: o.Name(side)
  }

  function OwnAuthorities(o: Preparation): set<Id> {
    set side | side in P.Sides(o.plan) && P.Look(o.state.disk, P.Final(P.Authority(side))).Some? :: o.Name(side)
  }

  /** What the directory of reservations lists. */
  function Reservations(w: World): set<Id> {
    w.reservations + if w.current.Some? then OwnReservations(w.current.value) else {}
  }

  function Authorities(w: World): set<Id> {
    w.authorities + if w.current.Some? then OwnAuthorities(w.current.value) else {}
  }

  function RootIds(ids: set<Id>): set<Id> {
    set id | id in ids && id.RootId?
  }

  /** The allocators, run on the directories as they are, give these IDs. An intermediate preparation keeps its root. */
  ghost predicate Allocates(w: World, kind: P.Side, root: Id, intermediate: Id,
                            reservations: seq<Entry>, roots: seq<Entry>, intermediates: seq<Entry>) {
    && root.RootId? && intermediate.IntermediateId? && intermediate.parent == root.root
    && Lists(reservations, Reservations(w))
    && Lists(roots, RootIds(Authorities(w))) && Lists(intermediates, Authorities(w) - RootIds(Authorities(w)))
    && (kind == P.Root ==> IsNextRoot(reservations, roots, Some(root.root)))
    && IsNextIntermediate(reservations, intermediates, root.root, Some(intermediate.number))
  }

  ghost predicate Allocated(w: World, kind: P.Side, root: Id, intermediate: Id) {
    exists reservations, roots, intermediates :: Allocates(w, kind, root, intermediate, reservations, roots, intermediates)
  }

  /** The IDs that a preparation of this kind reserves. */
  function Candidates(kind: P.Side, root: Id, intermediate: Id): set<Id> {
    if kind == P.Root then {root, intermediate} else {intermediate}
  }

  /** `Begin` is a preparation up to any kill before its publishing run; it leaves any state. */
  datatype Command =
    | Begin(plan: P.Plan, root: Id, intermediate: Id, state: P.State)
    | Publishing(fuel: nat)
    | Resuming(fuel: nat)
    | RollingBack(fuel: nat)
    | Close

  ghost function After(w: World, command: Command): World {
    match command
    case Begin(plan, root, intermediate, state) =>
      if w.current.Some? || !Allocated(w, plan.kind, root, intermediate) then w
      else w.(current := Some(Preparation(plan, root, intermediate, state)))
    case Close => World(Reservations(w), Authorities(w), None)
    case _ =>
      if w.current.None? then w else w.(current := Some(w.current.value.(state := Ran(w.current.value, command))))
  }

  function Ran(o: Preparation, command: Command): P.State
    requires !command.Begin? && !command.Close?
  {
    match command
    case Publishing(fuel) => P.RunForward(o.plan, o.state, fuel).state
    case Resuming(fuel) => P.RunResume(o.plan, o.state, fuel).state
    case RollingBack(fuel) => R.RunRollback(o.plan, o.state, fuel).state
  }

  ghost function Replay(w: World, commands: seq<Command>): World
    decreases |commands|
  {
    if commands == [] then w else Replay(After(w, commands[0]), commands[1..])
  }

  lemma RanKeeps(o: Preparation, command: Command)
    requires !command.Begin? && !command.Close?
    ensures OwnReservations(o) <= OwnReservations(o.(state := Ran(o, command)))
  {
    hide P.RunForward, P.RunResume, R.RunRollback, R.ReservedFor, P.Sides;
    var t := Ran(o, command);
    forall side | R.ReservedFor(o.state, side) ensures R.ReservedFor(t, side) { R.ReservationsStay(o.plan, o.state, command.fuel, side); }
    forall id | id in OwnReservations(o) ensures id in OwnReservations(o.(state := t)) {
      var side :| side in P.Sides(o.plan) && R.ReservedFor(o.state, side) && o.Name(side) == id;
      assert o.(state := t).Name(side) == id;
    }
  }

  lemma AfterKeeps(w: World, command: Command)
    ensures Reservations(w) <= Reservations(After(w, command))
  {
    hide Allocated, OwnReservations, OwnAuthorities, Ran;
    if w.current.Some? && !command.Begin? && !command.Close? { RanKeeps(w.current.value, command); }
  }

  lemma {:induction false} ReplayKeeps(w: World, commands: seq<Command>)
    ensures Reservations(w) <= Reservations(Replay(w, commands))
    decreases |commands|
  {
    hide After, Reservations;
    if commands != [] {
      AfterKeeps(w, commands[0]);
      ReplayKeeps(After(w, commands[0]), commands[1..]);
    }
  }

  /** What is allocated is neither reserved nor there. */
  lemma AllocatedNew(w: World, kind: P.Side, root: Id, intermediate: Id)
    requires Allocated(w, kind, root, intermediate)
    ensures Candidates(kind, root, intermediate) !! Reservations(w) + Authorities(w)
  {
    hide Reservations, Authorities, Lists, HoldsRoot, HoldsIntermediate;
    var reservations, roots, intermediates :| Allocates(w, kind, root, intermediate, reservations, roots, intermediates);
    Held(reservations, Reservations(w));
    Held(roots, RootIds(Authorities(w)));
    Held(intermediates, Authorities(w) - RootIds(Authorities(w)));
  }

  /**
   Over every sequence of preparations, each killed, resumed and rolled back anywhere and any number of times: an ID
   that was ever reserved stays reserved, and no later preparation is given it.
  */
  lemma NeverAllocatedAgain(w: World, earlier: seq<Command>, later: seq<Command>, id: Id)
    requires id in Reservations(Replay(w, earlier))
    ensures var t := Replay(Replay(w, earlier), later);
            && id in Reservations(t)
            && forall kind, root, intermediate :: Allocated(t, kind, root, intermediate) ==> id !in Candidates(kind, root, intermediate)
  {
    hide Replay, Reservations, Authorities, Candidates, Allocated;
    ReplayKeeps(Replay(w, earlier), later);
    var t := Replay(Replay(w, earlier), later);
    forall kind, root, intermediate | Allocated(t, kind, root, intermediate) ensures id !in Candidates(kind, root, intermediate) {
      AllocatedNew(t, kind, root, intermediate);
    }
  }

  // ------------------------------------------------------------ an allocation

  ghost function Listing(ids: set<Id>): (entries: seq<Entry>)
    ensures Lists(entries, ids)
  {
    if ids == {} then []
    else
      var id :| id in ids;
      assert forall x :: x in ids ==> x == id || x in ids - {id};
      Listing(ids - {id}) + [Entry(Good(id), true)]
  }

  /** There is always exactly one allocation for a root preparation, and one under each root for an intermediate one. */
  lemma AllocatedOnce(w: World, kind: P.Side, root: Id, intermediate: Id)
    requires root.RootId? && intermediate.IntermediateId? && intermediate.parent == root.root
    ensures Allocated(w, kind, root, intermediate) <==>
              && (kind == P.Root ==> root.root == Above(Roots(Reservations(w) + RootIds(Authorities(w)))))
              && intermediate.number == Above(Numbers(Reservations(w) + (Authorities(w) - RootIds(Authorities(w))), root.root))
  {
    hide Reservations, Authorities, IsNextRoot, IsNextIntermediate, Lists;
    var all := Authorities(w);
    forall reservations, roots, intermediates
      | Lists(reservations, Reservations(w)) && Lists(roots, RootIds(all)) && Lists(intermediates, all - RootIds(all))
      ensures IsNextRoot(reservations, roots, Some(root.root)) <==> root.root == Above(Roots(Reservations(w) + RootIds(all)))
      ensures IsNextIntermediate(reservations, intermediates, root.root, Some(intermediate.number))
         <==> intermediate.number == Above(Numbers(Reservations(w) + (all - RootIds(all)), root.root))
    {
      NextRootIsAbove(reservations, roots, Reservations(w), RootIds(all), root.root);
      NextIntermediateIsAbove(reservations, intermediates, Reservations(w), all - RootIds(all), root.root, intermediate.number);
    }
    var x, y, z := Listing(Reservations(w)), Listing(RootIds(all)), Listing(all - RootIds(all));
    assert Allocates(w, kind, root, intermediate, x, y, z) ==> Allocated(w, kind, root, intermediate);
  }
}
