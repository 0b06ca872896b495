/**
 What every step of a migration, a resume or a rollback keeps.

 A `View` says, for each journaled object, in which of its few places it is. `Depicts` ties a
 view to a disk by giving the expected occupant of every single name, so a view determines the
 disk completely, including the names that the transaction must not touch.
*/
module LegacyInvariant {
  import opened Options
  import opened LegacyModel
  import opened LegacyProgram

  // ------------------------------------------------------------------ views

  /** A published object is either still staged, in place, or withdrawn by a rollback. */
  datatype Place = Staging | Published | Removed

  datatype ConfigState = Original | New | Restored

  /** The furthest status a reservation reached before it was abandoned. */
  datatype Progressed = NotReserved | WasReserved | WasConsumed

  datatype AuthorityView = AuthorityView(side: Side, config: ConfigState, reservation: Progressed, abandoned: bool)

  datatype View = View(
    session: Place,
    active: Place,
    provenance: Place,
    root: AuthorityView,
    intermediate: AuthorityView,
    issuers: seq<Place>,
    quarantined: seq<bool>,
    transaction: bool)
  {
    function Of(a: Authority): AuthorityView {
      match a
      case Root => root
      case Intermediate => intermediate
    }

    function With(a: Authority, x: AuthorityView): View {
      match a
      case Root => this.(root := x)
      case Intermediate => this.(intermediate := x)
    }
  }

  function IndexOf(s: seq<Named>, name: string): (r: Option<nat>)
    ensures r.None? ==> forall i :: 0 <= i < |s| ==> s[i].name != name
    ensures r.Some? ==> r.value < |s| && s[r.value].name == name
  {
    if s == [] then None
    else if s[|s| - 1].name == name then Some(|s| - 1)
    else IndexOf(s[..|s| - 1], name)
  }

  function When(present: bool, o: Object): Option<Object> {
    if present then Some(o) else None
  }

  function ReservationObject(p: AuthorityPlan, x: AuthorityView): Option<Object> {
    if x.abandoned then Some(p.abandoned)
    else match x.reservation
      case NotReserved => p.reservationOriginal
      case WasReserved => Some(p.reserved)
      case WasConsumed => Some(p.consumed)
  }

  function ConfigObject(p: AuthorityPlan, x: AuthorityView): Object {
    match x.config
    case Original => p.configOriginal
    case New => p.configPublished
    case Restored => p.configRollback
  }

  function StagedObject(plan: Plan, initial: Disk, v: View, slot: Slot): Option<Object> {
    match slot
    case SessionPublish => When(v.session.Staging?, plan.session)
    case ActivePublish => When(v.active.Staging?, plan.active)
    case ReservedPublish(a) => When(v.Of(a).reservation.NotReserved?, plan.Of(a).reserved)
    case ConsumedPublish(a) => When(!v.Of(a).reservation.WasConsumed?, plan.Of(a).consumed)
    case AbandonedPublish(a) => When(!v.Of(a).abandoned, plan.Of(a).abandoned)
    case ConfigNew(a) => When(v.Of(a).config.Original?, plan.Of(a).configPublished)
    case ConfigRollback(a) => When(!v.Of(a).config.Restored?, plan.Of(a).configRollback)
    case IssuerStage(service) =>
      var i := IndexOf(plan.issuers, service);
      if i.Some? && i.value < |v.issuers|
      then When(v.issuers[i.value].Staging?, plan.issuers[i.value].obj)
      else At(initial, Staged(slot))
    case Quarantined(basename) =>
      var i := IndexOf(plan.quarantine, basename);
      if i.Some? && i.value < |v.quarantined|
      then When(v.quarantined[i.value], plan.quarantine[i.value].obj)
      else At(initial, Staged(slot))
  }

  /** What a view puts at a name. */
  function Expected(plan: Plan, initial: Disk, v: View, p: Path): Option<Object> {
    match p
    case BackupSession => When(v.session.Published?, plan.session)
    case ActiveIssuer => When(v.active.Published?, plan.active)
    case TransactionDir => When(v.transaction, plan.transaction)
    case ProvenanceStage => When(v.provenance.Staging?, plan.provenance)
    case ProvenanceDir => When(v.provenance.Published?, plan.provenance)
    case Reservation(a) => ReservationObject(plan.Of(a), v.Of(a))
    case Tree(a, side) => When(v.Of(a).side == side, plan.Of(a).tree)
    case Member(a, side, name) =>
      if v.Of(a).side != side then None
      else if name == CONFIG then Some(ConfigObject(plan.Of(a), v.Of(a)))
      else At(initial, Member(a, LegacySide, name))
    case Issuer(service) =>
      var i := IndexOf(plan.issuers, service);
      if i.Some? && i.value < |v.issuers|
      then When(v.issuers[i.value].Published?, plan.issuers[i.value].obj)
      else At(initial, p)
    case Scaffold(basename) =>
      var i := IndexOf(plan.quarantine, basename);
      if i.Some? && i.value < |v.quarantined|
      then When(!v.quarantined[i.value], plan.quarantine[i.value].obj)
      else At(initial, p)
    case Staged(slot) => if v.transaction then StagedObject(plan, initial, v, slot) else None
    case Elsewhere(_) => At(initial, p)
  }

  ghost predicate Depicts(plan: Plan, initial: Disk, v: View, d: Disk) {
    && |v.issuers| == |plan.issuers|
    && |v.quarantined| == |plan.quarantine|
    && forall p {:trigger At(d, p)} {:trigger p in d} :: At(d, p) == Expected(plan, initial, v, p)
  }

  /** A view leaves no freedom: two disks it depicts are the same. */
  lemma DepictedOnce(plan: Plan, initial: Disk, v: View, d1: Disk, d2: Disk)
    requires Depicts(plan, initial, v, d1) && Depicts(plan, initial, v, d2)
    ensures d1 == d2
  {
    forall p ensures p in d1 <==> p in d2 { assert At(d1, p) == At(d2, p); }
    forall p | p in d1 ensures d1[p] == d2[p] { assert At(d1, p) == At(d2, p); }
  }

  // -------------------------------------------------------------- invariant

  predicate AllEqual<T(==)>(s: seq<T>, x: T) {
    forall i :: 0 <= i < |s| ==> s[i] == x
  }

  predicate AuthorityPublished(x: AuthorityView) {
    x.side == GenerationSide && x.config == New && x.reservation == WasConsumed && !x.abandoned
  }

  /** Everything that must be in place before the active issuer manifest may appear. */
  predicate AllPublished(v: View) {
    && v.session == Published
    && AuthorityPublished(v.root) && AuthorityPublished(v.intermediate)
    && AllEqual(v.issuers, Published)
    && AllEqual(v.quarantined, true)
  }

  predicate AuthorityWithdrawn(x: AuthorityView) {
    x.side == LegacySide && x.config != New && x.abandoned
  }

  /** Nothing of the migration is left except, possibly, its provenance. */
  predicate Withdrawn(v: View) {
    && v.active != Published
    && v.session != Published
    && AuthorityWithdrawn(v.root) && AuthorityWithdrawn(v.intermediate)
    && (forall i :: 0 <= i < |v.issuers| ==> v.issuers[i] != Published)
    && AllEqual(v.quarantined, false)
  }

  predicate ViewOk(v: View) {
    && v.transaction
    && (v.active == Published ==> AllPublished(v))
    && (v.provenance == Removed ==> v.root.abandoned && v.intermediate.abandoned)
    && (v.provenance == Published ==> v.active != Staging)
  }

  predicate JournalOk(v: View, j: Journal) {
    if j.committed then
      || (j.phase == Complete && AllPublished(v) && v.active == Published && v.provenance == Published)
      || (j.phase == RolledBack && Withdrawn(v) && v.provenance == Removed && v.transaction)
    else
      && ViewOk(v)
      && (j.action == Some(Rollback) && IsProvenanceStep(j.step, Rollback) ==> Withdrawn(v))
  }

  function InitialView(plan: Plan): View {
    var x := AuthorityView(LegacySide, Original, NotReserved, false);
    View(Staging, Staging, Staging, x, x, seq(|plan.issuers|, _ => Staging), seq(|plan.quarantine|, _ => false), true)
  }

  /** The disk on which the journal is first written: everything staged, nothing published. */
  ghost predicate Initial(plan: Plan, d: Disk) {
    Depicts(plan, d, InitialView(plan), d)
  }

  ghost predicate Consistent(plan: Plan, initial: Disk, v: View, s: State) {
    && Depicts(plan, initial, v, s.disk)
    && (s.journal.None? ==> v == InitialView(plan))
    && (s.journal.Some? ==> JournalOk(v, s.journal.value))
  }

  /** What holds of every state that a killed, refused or finished command leaves behind. */
  ghost predicate Inv(plan: Plan, initial: Disk, s: State) {
    exists v :: Consistent(plan, initial, v, s)
  }

  // ----------------------------------------------- operations act on views

  lemma IndexOfName(s: seq<Named>, i: nat)
    requires DistinctNames(s) && i < |s|
    ensures IndexOf(s, s[i].name) == Some(i)
  {
  }

  lemma Publishes(plan: Plan, initial: Disk, v: View, v': View, d: Disk,
                  source: Path, destination: Path, o: Object, expected: seq<Option<Object>>)
    requires Depicts(plan, initial, v, d)
    requires source != destination
    requires Expected(plan, initial, v, source) == Some(o)
    requires MatchesAny(Expected(plan, initial, v, destination), expected)
    requires |v'.issuers| == |v.issuers| && |v'.quarantined| == |v.quarantined|
    requires forall p :: Expected(plan, initial, v', p)
                         == if p == destination then Some(o) else if p == source then None else Expected(plan, initial, v, p)
    ensures var r := Exec(Publish(source, destination, o, expected), d);
      r.Some? && Depicts(plan, initial, v', r.value)
  {
    assert At(d, source) == Some(o);
    assert At(d, destination) == Expected(plan, initial, v, destination);
  }

  lemma Removes(plan: Plan, initial: Disk, v: View, v': View, d: Disk, path: Path, o: Object)
    requires Depicts(plan, initial, v, d)
    requires Expected(plan, initial, v, path) == Some(o)
    requires |v'.issuers| == |v.issuers| && |v'.quarantined| == |v.quarantined|
    requires forall p :: Expected(plan, initial, v', p) == if p == path then None else Expected(plan, initial, v, p)
    ensures Exec(Unlink(path, o), d).Some? && Depicts(plan, initial, v', Exec(Unlink(path, o), d).value)
    ensures Exec(RemoveTree(path, o), d).Some? && Depicts(plan, initial, v', Exec(RemoveTree(path, o), d).value)
  {
    assert At(d, path) == Some(o);
  }

  lemma MovesTree(plan: Plan, initial: Disk, v: View, d: Disk, a: Authority, from: Side, to: Side)
    requires Depicts(plan, initial, v, d)
    requires from != to && v.Of(a).side == from
    ensures var r := Exec(MoveTree(a, from, to, plan.Of(a).tree), d);
      r.Some? && Depicts(plan, initial, v.With(a, v.Of(a).(side := to)), r.value)
  {
    assert At(d, Tree(a, from)) == Some(plan.Of(a).tree);
    forall p | p in d ensures !InTree(p, a, to) { assert At(d, p).Some?; }
    var r := Renamed(d, a, from, to);
    var v' := v.With(a, v.Of(a).(side := to));
    forall p ensures At(r, p) == Expected(plan, initial, v', p) {
      ExpectedAfterMove(plan, initial, v, a, from, to, p);
      if InTree(p, a, to) {
        assert At(r, p) == At(d, Relocate(p, from));
      } else if !InTree(p, a, from) {
        assert At(r, p) == At(d, p);
      }
    }
  }

  lemma ExpectedAfterMove(plan: Plan, initial: Disk, v: View, a: Authority, from: Side, to: Side, p: Path)
    requires from != to && v.Of(a).side == from
    ensures var v' := v.With(a, v.Of(a).(side := to));
      Expected(plan, initial, v', p)
      == if InTree(p, a, to) then Expected(plan, initial, v, Relocate(p, from))
         else if InTree(p, a, from) then None
         else Expected(plan, initial, v, p)
  {
  }

  /** What an authority's part of a view puts at the names that are about its reservation and configuration. */
  function Own(plan: Plan, v: View, a: Authority, x: AuthorityView, p: Path): Option<Object> {
    var o := plan.Of(a);
    if p == Reservation(a) then ReservationObject(o, x)
    else if p == Config(a, x.side) then Some(ConfigObject(o, x))
    else if !v.transaction then None
    else if p == Staged(ReservedPublish(a)) then When(x.reservation.NotReserved?, o.reserved)
    else if p == Staged(ConsumedPublish(a)) then When(!x.reservation.WasConsumed?, o.consumed)
    else if p == Staged(AbandonedPublish(a)) then When(!x.abandoned, o.abandoned)
    else if p == Staged(ConfigNew(a)) then When(x.config.Original?, o.configPublished)
    else When(!x.config.Restored?, o.configRollback)
  }

  predicate Owned(a: Authority, side: Side, p: Path) {
    p in {Reservation(a), Config(a, side), Staged(ReservedPublish(a)), Staged(ConsumedPublish(a)), Staged(AbandonedPublish(a)),
          Staged(ConfigNew(a)), Staged(ConfigRollback(a))}
  }

  /** Changing an authority's reservation and configuration changes what is expected at its own names only. */
  lemma ExpectedAuthority(plan: Plan, initial: Disk, v: View, a: Authority, x: AuthorityView, p: Path)
    requires x.side == v.Of(a).side
    ensures Expected(plan, initial, v.With(a, x), p) == if Owned(a, x.side, p) then Own(plan, v, a, x, p) else Expected(plan, initial, v, p)
  {
  }

  /** A publication at an authority's own names, on the view. */
  lemma AuthorityPublishes(plan: Plan, initial: Disk, v: View, d: Disk, a: Authority, x: AuthorityView,
                           source: Path, destination: Path, o: Object, expected: seq<Option<Object>>)
    requires Depicts(plan, initial, v, d) && x.side == v.Of(a).side && source != destination
    requires Owned(a, x.side, source) && Owned(a, x.side, destination)
    requires Own(plan, v, a, v.Of(a), source) == Some(o) && MatchesAny(Own(plan, v, a, v.Of(a), destination), expected)
    requires forall p :: Owned(a, x.side, p) ==>
               Own(plan, v, a, x, p) == if p == destination then Some(o) else if p == source then None else Own(plan, v, a, v.Of(a), p)
    ensures var r := Exec(Publish(source, destination, o, expected), d);
      r.Some? && Depicts(plan, initial, v.With(a, x), r.value)
  {
    hide Expected, Own, Owned, Exec;
    assert v.With(a, v.Of(a)) == v;
    forall p
      ensures Expected(plan, initial, v.With(a, x), p)
           == if p == destination then Some(o) else if p == source then None else Expected(plan, initial, v, p)
    {
      ExpectedAuthority(plan, initial, v, a, x, p);
      ExpectedAuthority(plan, initial, v, a, v.Of(a), p);
    }
    ExpectedAuthority(plan, initial, v, a, v.Of(a), source);
    ExpectedAuthority(plan, initial, v, a, v.Of(a), destination);
    Publishes(plan, initial, v, v.With(a, x), d, source, destination, o, expected);
  }

  /** The identity found at a reservation tells its status. */
  lemma ReservationReads(plan: Plan, initial: Disk, v: View, d: Disk, a: Authority)
    requires WellFormed(plan) && Depicts(plan, initial, v, d)
    ensures var p, x, current := plan.Of(a), v.Of(a), At(d, Reservation(a));
      && (Matches(current, p.reservationOriginal) <==> x.reservation == NotReserved && !x.abandoned)
      && (Matches(current, Some(p.reserved)) <==> x.reservation == WasReserved && !x.abandoned)
      && (Matches(current, Some(p.consumed)) <==> x.reservation == WasConsumed && !x.abandoned)
      && (Matches(current, Some(p.abandoned)) <==> x.abandoned)
  {
    assert At(d, Reservation(a)) == Expected(plan, initial, v, Reservation(a));
    assert WellFormedAuthority(plan.Of(a));
  }

  /** The identity found at a configuration tells whether it was published or restored. */
  lemma ConfigReads(plan: Plan, initial: Disk, v: View, d: Disk, a: Authority)
    requires WellFormed(plan) && Depicts(plan, initial, v, d)
    ensures var p, x := plan.Of(a), v.Of(a); var current := At(d, Config(a, x.side));
      && (Matches(current, Some(p.configOriginal)) <==> x.config == Original)
      && (Matches(current, Some(p.configPublished)) <==> x.config == New)
      && (Matches(current, Some(p.configRollback)) <==> x.config == Restored)
  {
    assert At(d, Config(a, v.Of(a).side)) == Expected(plan, initial, v, Config(a, v.Of(a).side));
    assert WellFormedAuthority(plan.Of(a));
  }

  lemma SessionPublishes(plan: Plan, initial: Disk, v: View, d: Disk)
    requires Depicts(plan, initial, v, d) && v.transaction && v.session == Staging
    ensures var r := Exec(Publish(Staged(SessionPublish), BackupSession, plan.session, [None]), d);
      r.Some? && Depicts(plan, initial, v.(session := Published), r.value)
  {
    assert Matches(Expected(plan, initial, v, BackupSession), [None][0]);
    Publishes(plan, initial, v, v.(session := Published), d, Staged(SessionPublish), BackupSession, plan.session, [None]);
  }

  lemma ActivePublishes(plan: Plan, initial: Disk, v: View, d: Disk)
    requires Depicts(plan, initial, v, d) && v.transaction && v.active == Staging
    ensures var r := Exec(Publish(Staged(ActivePublish), ActiveIssuer, plan.active, [None]), d);
      r.Some? && Depicts(plan, initial, v.(active := Published), r.value)
  {
    assert Matches(Expected(plan, initial, v, ActiveIssuer), [None][0]);
    Publishes(plan, initial, v, v.(active := Published), d, Staged(ActivePublish), ActiveIssuer, plan.active, [None]);
  }

  lemma ReservationPublishes(plan: Plan, initial: Disk, v: View, d: Disk, a: Authority)
    requires Depicts(plan, initial, v, d) && v.transaction
    requires v.Of(a).reservation == NotReserved && !v.Of(a).abandoned
    ensures var r := Exec(ResumeReserve(plan, a).op, d);
      r.Some? && Depicts(plan, initial, v.With(a, v.Of(a).(reservation := WasReserved)), r.value)
  {
    hide Depicts, Expected;
    var p, x := plan.Of(a), v.Of(a).(reservation := WasReserved);
    assert Matches(Own(plan, v, a, v.Of(a), Reservation(a)), [p.reservationOriginal][0]);
    AuthorityPublishes(plan, initial, v, d, a, x, Staged(ReservedPublish(a)), Reservation(a), p.reserved, [p.reservationOriginal]);
  }

  lemma ReservationConsumes(plan: Plan, initial: Disk, v: View, d: Disk, a: Authority)
    requires Depicts(plan, initial, v, d) && v.transaction
    requires v.Of(a).reservation == WasReserved && !v.Of(a).abandoned
    ensures var r := Exec(ResumeConsume(plan, a).op, d);
      r.Some? && Depicts(plan, initial, v.With(a, v.Of(a).(reservation := WasConsumed)), r.value)
  {
    hide Depicts, Expected;
    var p, x := plan.Of(a), v.Of(a).(reservation := WasConsumed);
    assert Matches(Own(plan, v, a, v.Of(a), Reservation(a)), [Some(p.reserved)][0]);
    AuthorityPublishes(plan, initial, v, d, a, x, Staged(ConsumedPublish(a)), Reservation(a), p.consumed, [Some(p.reserved)]);
  }

  lemma ReservationAbandons(plan: Plan, initial: Disk, v: View, d: Disk, a: Authority)
    requires Depicts(plan, initial, v, d) && v.transaction && !v.Of(a).abandoned
    ensures var r := Exec(RollbackReservation(plan, a).op, d);
      r.Some? && Depicts(plan, initial, v.With(a, v.Of(a).(abandoned := true)), r.value)
  {
    hide Depicts, Expected;
    var p, x := plan.Of(a), v.Of(a).(abandoned := true);
    var expected := [p.reservationOriginal, Some(p.reserved), Some(p.consumed)];
    var current := Own(plan, v, a, v.Of(a), Reservation(a));
    assert MatchesAny(current, expected) by {
      match v.Of(a).reservation
      case NotReserved => assert Matches(current, expected[0]);
      case WasReserved => assert Matches(current, expected[1]);
      case WasConsumed => assert Matches(current, expected[2]);
    }
    AuthorityPublishes(plan, initial, v, d, a, x, Staged(AbandonedPublish(a)), Reservation(a), p.abandoned, expected);
  }

  lemma ConfigPublishes(plan: Plan, initial: Disk, v: View, d: Disk, a: Authority)
    requires Depicts(plan, initial, v, d) && v.transaction
    requires v.Of(a).side == GenerationSide && v.Of(a).config == Original
    ensures var r := Exec(ResumeConfig(plan, a).op, d);
      r.Some? && Depicts(plan, initial, v.With(a, v.Of(a).(config := New)), r.value)
  {
    hide Depicts, Expected;
    var p, x := plan.Of(a), v.Of(a).(config := New);
    assert Matches(Own(plan, v, a, v.Of(a), Config(a, GenerationSide)), [Some(p.configOriginal)][0]);
    AuthorityPublishes(plan, initial, v, d, a, x, Staged(ConfigNew(a)), Config(a, GenerationSide), p.configPublished, [Some(p.configOriginal)]);
  }

  lemma ConfigRestores(plan: Plan, initial: Disk, v: View, d: Disk, a: Authority)
    requires Depicts(plan, initial, v, d) && v.transaction && v.Of(a).config == New
    ensures var r := Exec(RollbackConfig(plan, a, v.Of(a).side).op, d);
      r.Some? && Depicts(plan, initial, v.With(a, v.Of(a).(config := Restored)), r.value)
  {
    hide Depicts, Expected;
    var p, x := plan.Of(a), v.Of(a).(config := Restored);
    assert Matches(Own(plan, v, a, v.Of(a), Config(a, x.side)), [Some(p.configPublished)][0]);
    AuthorityPublishes(plan, initial, v, d, a, x, Staged(ConfigRollback(a)), Config(a, x.side), p.configRollback, [Some(p.configPublished)]);
  }

  /** Changing one issuer's place changes what is expected at its two names only. */
  lemma ExpectedIssuer(plan: Plan, initial: Disk, v: View, i: nat, place: Place, p: Path)
    requires DistinctNames(plan.issuers) && |v.issuers| == |plan.issuers| && i < |plan.issuers|
    ensures var e, x := plan.issuers[i], Expected(plan, initial, v.(issuers := v.issuers[i := place]), p);
      && (p == Issuer(e.name) ==> x == When(place == Published, e.obj))
      && (p == Staged(IssuerStage(e.name)) ==> x == When(v.transaction && place == Staging, e.obj))
      && (p != Issuer(e.name) && p != Staged(IssuerStage(e.name)) ==> x == Expected(plan, initial, v, p))
  {
    IndexOfName(plan.issuers, i);
    if p.Issuer? || (p.Staged? && p.slot.IssuerStage?) {
      var j := IndexOf(plan.issuers, if p.Issuer? then p.service else p.slot.service);
    }
  }

  lemma ExpectedQuarantine(plan: Plan, initial: Disk, v: View, i: nat, moved: bool, p: Path)
    requires DistinctNames(plan.quarantine) && |v.quarantined| == |plan.quarantine| && i < |plan.quarantine|
    ensures var e, x := plan.quarantine[i], Expected(plan, initial, v.(quarantined := v.quarantined[i := moved]), p);
      && (p == Scaffold(e.name) ==> x == When(!moved, e.obj))
      && (p == Staged(Quarantined(e.name)) ==> x == When(v.transaction && moved, e.obj))
      && (p != Scaffold(e.name) && p != Staged(Quarantined(e.name)) ==> x == Expected(plan, initial, v, p))
  {
    IndexOfName(plan.quarantine, i);
  }

  lemma IssuerPublishes(plan: Plan, initial: Disk, v: View, d: Disk, i: nat)
    requires WellFormed(plan) && Depicts(plan, initial, v, d) && v.transaction
    requires i < |plan.issuers| && v.issuers[i] == Staging
    ensures var r := Exec(ResumeIssuer(plan.issuers[i]).op, d);
      r.Some? && Depicts(plan, initial, v.(issuers := v.issuers[i := Published]), r.value)
  {
    var e := plan.issuers[i];
    IndexOfName(plan.issuers, i);
    assert Matches(Expected(plan, initial, v, Issuer(e.name)), [None][0]);
    forall p { ExpectedIssuer(plan, initial, v, i, Published, p); }
    Publishes(plan, initial, v, v.(issuers := v.issuers[i := Published]), d,
              Staged(IssuerStage(e.name)), Issuer(e.name), e.obj, [None]);
  }

  lemma IssuerUnlinks(plan: Plan, initial: Disk, v: View, d: Disk, i: nat)
    requires WellFormed(plan) && Depicts(plan, initial, v, d)
    requires i < |plan.issuers| && v.issuers[i] == Published
    ensures var r := Exec(RollbackIssuer(plan.issuers[i]).op, d);
      r.Some? && Depicts(plan, initial, v.(issuers := v.issuers[i := Removed]), r.value)
  {
    IndexOfName(plan.issuers, i);
    forall p { ExpectedIssuer(plan, initial, v, i, Removed, p); }
    Removes(plan, initial, v, v.(issuers := v.issuers[i := Removed]), d, Issuer(plan.issuers[i].name), plan.issuers[i].obj);
  }

  lemma QuarantineMoves(plan: Plan, initial: Disk, v: View, d: Disk, i: nat)
    requires WellFormed(plan) && Depicts(plan, initial, v, d) && v.transaction
    requires i < |plan.quarantine| && !v.quarantined[i]
    ensures var r := Exec(ResumeQuarantine(plan.quarantine[i]).op, d);
      r.Some? && Depicts(plan, initial, v.(quarantined := v.quarantined[i := true]), r.value)
  {
    var e := plan.quarantine[i];
    IndexOfName(plan.quarantine, i);
    assert Matches(Expected(plan, initial, v, Staged(Quarantined(e.name))), [None][0]);
    forall p { ExpectedQuarantine(plan, initial, v, i, true, p); }
    Publishes(plan, initial, v, v.(quarantined := v.quarantined[i := true]), d,
              Scaffold(e.name), Staged(Quarantined(e.name)), e.obj, [None]);
  }

  lemma QuarantineReturns(plan: Plan, initial: Disk, v: View, d: Disk, i: nat)
    requires WellFormed(plan) && Depicts(plan, initial, v, d) && v.transaction
    requires i < |plan.quarantine| && v.quarantined[i]
    ensures var r := Exec(RollbackQuarantine(plan.quarantine[i]).op, d);
      r.Some? && Depicts(plan, initial, v.(quarantined := v.quarantined[i := false]), r.value)
  {
    var e := plan.quarantine[i];
    IndexOfName(plan.quarantine, i);
    assert Matches(Expected(plan, initial, v, Scaffold(e.name)), [None][0]);
    forall p { ExpectedQuarantine(plan, initial, v, i, false, p); }
    Publishes(plan, initial, v, v.(quarantined := v.quarantined[i := false]), d,
              Staged(Quarantined(e.name)), Scaffold(e.name), e.obj, [None]);
  }

  lemma ActiveUnlinks(plan: Plan, initial: Disk, v: View, d: Disk)
    requires Depicts(plan, initial, v, d) && v.active == Published
    ensures var r := Exec(RollbackActive(plan).op, d);
      r.Some? && Depicts(plan, initial, v.(active := Removed), r.value)
  {
    Removes(plan, initial, v, v.(active := Removed), d, ActiveIssuer, plan.active);
  }

  lemma SessionUnlinks(plan: Plan, initial: Disk, v: View, d: Disk)
    requires Depicts(plan, initial, v, d) && v.session == Published
    ensures var r := Exec(RollbackSession(plan).op, d);
      r.Some? && Depicts(plan, initial, v.(session := Removed), r.value)
  {
    Removes(plan, initial, v, v.(session := Removed), d, BackupSession, plan.session);
  }

  lemma ProvenanceRemoves(plan: Plan, initial: Disk, v: View, d: Disk)
    requires Depicts(plan, initial, v, d) && v.provenance != Removed
    ensures var path := if v.provenance == Staging then ProvenanceStage else ProvenanceDir;
            var r := Exec(RemoveTree(path, plan.provenance), d);
      r.Some? && Depicts(plan, initial, v.(provenance := Removed), r.value)
  {
    Removes(plan, initial, v, v.(provenance := Removed), d,
            if v.provenance == Staging then ProvenanceStage else ProvenanceDir, plan.provenance);
  }

  lemma ProvenanceMoves(plan: Plan, initial: Disk, v: View, d: Disk)
    requires Depicts(plan, initial, v, d) && v.provenance == Staging
    ensures var r := Exec(MoveProvenance(plan.provenance), d);
      r.Some? && Depicts(plan, initial, v.(provenance := Published), r.value)
  {
    var v' := v.(provenance := Published);
    assert At(d, ProvenanceStage) == Some(plan.provenance);
    assert At(d, ProvenanceDir) == None;
    forall p ensures Expected(plan, initial, v', p)
                     == if p == ProvenanceDir then Some(plan.provenance) else if p == ProvenanceStage then None
                        else Expected(plan, initial, v, p) {
    }
  }

  lemma TransactionDrops(plan: Plan, initial: Disk, v: View, d: Disk)
    requires Depicts(plan, initial, v, d) && v.transaction
    ensures Depicts(plan, initial, v.(transaction := false), WithoutTransaction(d))
  {
    forall p ensures At(WithoutTransaction(d), p) == Expected(plan, initial, v.(transaction := false), p) {
      assert At(d, p) == Expected(plan, initial, v, p);
    }
  }
}
