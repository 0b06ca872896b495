/**
 The forward migration, its resume and its rollback as programs over atomic disk operations.

 A program is a list of items. Running one spends a budget of atomic changes; when the
 budget is exhausted the process is taken to have been killed, leaving the state as it is.
*/
module LegacyProgram {
  import opened Options
  import opened LegacyModel

  // ------------------------------------------------------ atomic operations

  datatype Op =
    | Publish(source: Path, destination: Path, obj: Object, expected: seq<Option<Object>>)
    | MoveTree(a: Authority, from: Side, to: Side, tree: Object)
    | MoveProvenance(obj: Object)
    | Unlink(path: Path, obj: Object)
    | RemoveTree(path: Path, obj: Object)

  predicate InTree(p: Path, a: Authority, side: Side) {
    (p.Tree? || p.Member?) && p.a == a && p.side == side
  }

  function Relocate(p: Path, side: Side): Path
    requires p.Tree? || p.Member?
  {
    if p.Tree? then Tree(p.a, side) else Member(p.a, side, p.name)
  }

  /** Renaming a directory: every name below it moves with it. */
  function Renamed(d: Disk, a: Authority, from: Side, to: Side): (r: Disk)
    requires from != to
    requires forall p :: p in d ==> !InTree(p, a, to)
    ensures forall p {:trigger p in r} {:trigger At(r, p)} ::
              At(r, p) == if InTree(p, a, to) then At(d, Relocate(p, from))
                          else if InTree(p, a, from) then None
                          else At(d, p)
  {
    var moved := set p | p in d && InTree(p, a, from) :: Relocate(p, to);
    var kept := map p | p in d && !InTree(p, a, from) :: d[p];
    var placed := map q | q in moved :: d[Relocate(q, from)];
    assert forall q :: q in moved <==> InTree(q, a, to) && Relocate(q, from) in d by {
      forall q | InTree(q, a, to) && Relocate(q, from) in d
        ensures q in moved
      {
        assert Relocate(Relocate(q, from), to) == q;
      }
    }
    kept + placed
  }

  /** The new disk, or `None` when the operation finds something it did not expect. */
  function Exec(op: Op, d: Disk): Option<Disk> {
    match op
    case Publish(source, destination, obj, expected) =>
      if source != destination && Matches(At(d, source), Some(obj)) && MatchesAny(At(d, destination), expected)
      then Some(d[destination := d[source]] - {source})
      else None
    case MoveTree(a, from, to, tree) =>
      if from != to && Matches(At(d, Tree(a, from)), Some(tree)) && (forall p :: p in d ==> !InTree(p, a, to))
      then Some(Renamed(d, a, from, to))
      else None
    case MoveProvenance(obj) =>
      if Matches(At(d, ProvenanceStage), Some(obj)) && ProvenanceDir !in d
      then Some(d[ProvenanceDir := d[ProvenanceStage]] - {ProvenanceStage})
      else None
    case Unlink(path, obj) =>
      if Matches(At(d, path), Some(obj)) then Some(d - {path}) else None
    case RemoveTree(path, obj) =>
      if Matches(At(d, path), Some(obj)) then Some(d - {path}) else None
  }

  /** Removing the transaction directory takes every staged object with it. */
  function WithoutTransaction(d: Disk): (r: Disk)
    ensures forall p {:trigger At(r, p)} ::
              At(r, p) == if p.Staged? || p == TransactionDir then None else At(d, p)
  {
    map p | p in d && !p.Staged? && p != TransactionDir :: d[p]
  }

  // ------------------------------------------------------------------ items

  datatype Guard =
    | Always
    | Is(path: Path, expected: Option<Object>)
    | IsNot(path: Path, expected: Option<Object>)
    | Exists(path: Path)

  predicate Test(g: Guard, d: Disk) {
    match g
    case Always => true
    case Is(path, expected) => Matches(At(d, path), expected)
    case IsNot(path, expected) => !Matches(At(d, path), expected)
    case Exists(path) => path in d
  }

  /**
   `Guarded`: when the guard holds, write the `-pending` checkpoint, perform the operation and
   write the `-done` checkpoint; otherwise insist on `otherwise`. `Do`: an unguarded operation
   of the forward run. `Locate`: insist that an authority is at exactly one of its paths.
  */
  datatype Item =
    | Guarded(point: Point, guard: Guard, op: Op, otherwise: Guard)
    | Do(op: Op)
    | Locate(a: Authority, tree: Object)
    | Mark(phase: Phase)
    | Commit(phase: Phase)
    | DropMarker
    | DropTransaction(transaction: Object)

  /** Exactly one of the two paths exists, and it is the journaled directory. */
  predicate Located(d: Disk, a: Authority, tree: Object) {
    && (Tree(a, LegacySide) in d) != (Tree(a, GenerationSide) in d)
    && Matches(At(d, if Tree(a, LegacySide) in d then Tree(a, LegacySide) else Tree(a, GenerationSide)), Some(tree))
  }

  datatype Outcome = Running | Crashed | Refused | Finished

  datatype Progress = Progress(state: State, outcome: Outcome, budget: nat)

  /** The record that a journal write produces; the forward run carries no recovery fields. */
  function Written(j: Option<Journal>, mode: Option<Action>, phase: Phase, committed: bool): Journal {
    match mode
    case None => Journal(phase, None, NoStep, committed)
    case Some(action) => Journal(phase, mode, if j.Some? then j.value.step else NoStep, committed)
  }

  function Checkpoint(s: State, action: Action, step: Step): State {
    s.(journal := Some(Journal(Recovering, Some(action), step, false)))
  }

  function RunItem(item: Item, mode: Option<Action>, s: State, budget: nat): (r: Progress)
    ensures r.outcome != Finished
    ensures s.journal.Some? ==> r.state.journal.Some?
  {
    match item
    case Guarded(point, guard, op, otherwise) =>
      if mode.None? then Progress(s, Refused, budget)
      else if Test(guard, s.disk) then
        if budget == 0 then Progress(s, Crashed, 0) else
        var s1 := Checkpoint(s, mode.value, Pending(mode.value, point));
        if budget == 1 then Progress(s1, Crashed, 0) else
        var r := Exec(op, s.disk);
        if r.None? then Progress(s1, Refused, budget - 1) else
        var s2 := s1.(disk := r.value);
        if budget == 2 then Progress(s2, Crashed, 0) else
        Progress(Checkpoint(s2, mode.value, Done(mode.value, point)), Running, budget - 3)
      else if Test(otherwise, s.disk) then Progress(s, Running, budget)
      else Progress(s, Refused, budget)
    case Do(op) =>
      if budget == 0 then Progress(s, Crashed, 0) else
      var r := Exec(op, s.disk);
      if r.None? then Progress(s, Refused, budget)
      else Progress(s.(disk := r.value), Running, budget - 1)
    case Locate(a, tree) =>
      Progress(s, if Located(s.disk, a, tree) then Running else Refused, budget)
    case Mark(phase) =>
      if budget == 0 then Progress(s, Crashed, 0)
      else Progress(s.(journal := Some(Written(s.journal, mode, phase, false))), Running, budget - 1)
    case Commit(phase) =>
      if budget == 0 then Progress(s, Crashed, 0)
      else Progress(s.(journal := Some(Written(s.journal, mode, phase, true))), Running, budget - 1)
    case DropMarker =>
      if budget == 0 then Progress(s, Crashed, 0)
      else Progress(s.(marker := false), Running, budget - 1)
    case DropTransaction(transaction) =>
      if budget == 0 then Progress(s, Crashed, 0)
      else if Matches(At(s.disk, TransactionDir), Some(transaction))
      then Progress(s.(disk := WithoutTransaction(s.disk)), Running, budget - 1)
      else Progress(s, Refused, budget)
  }

  // --------------------------------------------------------------- programs

  datatype Program = Migrate | Recover(action: Action)

  function ForwardHead(plan: Plan): seq<Item> {
    [ Mark(PreMutation),
      Do(Publish(Staged(SessionPublish), BackupSession, plan.session, [None])),
      Do(Publish(Staged(ReservedPublish(Root)), Reservation(Root), plan.root.reserved, [plan.root.reservationOriginal])),
      Do(Publish(Staged(ReservedPublish(Intermediate)), Reservation(Intermediate), plan.intermediate.reserved,
                 [plan.intermediate.reservationOriginal])),
      Mark(ReservedPhase),
      Do(MoveTree(Root, LegacySide, GenerationSide, plan.root.tree)),
      Mark(RootRenamed),
      Do(MoveTree(Intermediate, LegacySide, GenerationSide, plan.intermediate.tree)),
      Mark(IntermediateRenamed),
      Do(Publish(Staged(ConfigNew(Root)), Config(Root, GenerationSide), plan.root.configPublished,
                 [Some(plan.root.configOriginal)])),
      Do(Publish(Staged(ConfigNew(Intermediate)), Config(Intermediate, GenerationSide), plan.intermediate.configPublished,
                 [Some(plan.intermediate.configOriginal)])),
      Mark(ConfigsPublished) ]
  }

  function ForwardTail(plan: Plan): seq<Item> {
    [ Mark(QuarantinedPhase),
      Do(Publish(Staged(ConsumedPublish(Root)), Reservation(Root), plan.root.consumed, [Some(plan.root.reserved)])),
      Do(Publish(Staged(ConsumedPublish(Intermediate)), Reservation(Intermediate), plan.intermediate.consumed,
                 [Some(plan.intermediate.reserved)])),
      Mark(ActivePending),
      Do(Publish(Staged(ActivePublish), ActiveIssuer, plan.active, [None])),
      Mark(ActivePublished),
      Do(MoveProvenance(plan.provenance)),
      Mark(ProvenancePublished),
      Commit(Complete),
      DropMarker,
      DropTransaction(plan.transaction) ]
  }

  function ResumeHead(plan: Plan): seq<Item> {
    [ ResumeSession(plan),
      ResumeReserve(plan, Root),
      ResumeReserve(plan, Intermediate),
      Mark(ReservedPhase),
      Locate(Root, plan.root.tree),
      ResumeRename(plan, Root),
      Mark(RootRenamed),
      Locate(Intermediate, plan.intermediate.tree),
      ResumeRename(plan, Intermediate),
      Mark(IntermediateRenamed),
      ResumeConfig(plan, Root),
      ResumeConfig(plan, Intermediate),
      Mark(ConfigsPublished) ]
  }

  function ResumeSession(plan: Plan): Item {
    Guarded(SessionPoint, Is(BackupSession, None),
            Publish(Staged(SessionPublish), BackupSession, plan.session, [None]), Always)
  }

  function ResumeReserve(plan: Plan, a: Authority): Item {
    Guarded(ReservationPoint(a), Is(Reservation(a), plan.Of(a).reservationOriginal),
            Publish(Staged(ReservedPublish(a)), Reservation(a), plan.Of(a).reserved, [plan.Of(a).reservationOriginal]),
            Always)
  }

  function ResumeRename(plan: Plan, a: Authority): Item {
    Guarded(RenamePoint(a), Exists(Tree(a, LegacySide)),
            MoveTree(a, LegacySide, GenerationSide, plan.Of(a).tree), Always)
  }

  function ResumeConfig(plan: Plan, a: Authority): Item {
    Guarded(ConfigPoint(a), Is(Config(a, GenerationSide), Some(plan.Of(a).configOriginal)),
            Publish(Staged(ConfigNew(a)), Config(a, GenerationSide), plan.Of(a).configPublished,
                    [Some(plan.Of(a).configOriginal)]),
            Is(Config(a, GenerationSide), Some(plan.Of(a).configPublished)))
  }

  function ResumeConsume(plan: Plan, a: Authority): Item {
    Guarded(ConsumePoint(a), Is(Reservation(a), Some(plan.Of(a).reserved)),
            Publish(Staged(ConsumedPublish(a)), Reservation(a), plan.Of(a).consumed, [Some(plan.Of(a).reserved)]),
            Is(Reservation(a), Some(plan.Of(a).consumed)))
  }

  function ResumeIssuer(e: Named): Item {
    Guarded(IssuerPoint(e.name), Is(Issuer(e.name), None),
            Publish(Staged(IssuerStage(e.name)), Issuer(e.name), e.obj, [None]),
            Is(Issuer(e.name), Some(e.obj)))
  }

  function ResumeQuarantine(e: Named): Item {
    Guarded(QuarantinePoint(e.name), Is(Scaffold(e.name), Some(e.obj)),
            Publish(Scaffold(e.name), Staged(Quarantined(e.name)), e.obj, [None]),
            Is(Staged(Quarantined(e.name)), Some(e.obj)))
  }

  function ResumeActive(plan: Plan): Item {
    Guarded(ActivePoint, Is(ActiveIssuer, None),
            Publish(Staged(ActivePublish), ActiveIssuer, plan.active, [None]),
            Is(ActiveIssuer, Some(plan.active)))
  }

  function ResumeProvenance(plan: Plan): Item {
    Guarded(ProvenancePoint, Exists(ProvenanceStage), MoveProvenance(plan.provenance), Always)
  }

  function ResumeTail(plan: Plan): seq<Item> {
    [ Mark(QuarantinedPhase),
      ResumeConsume(plan, Root),
      ResumeConsume(plan, Intermediate),
      Mark(ActivePending),
      ResumeActive(plan),
      ResumeProvenance(plan),
      Commit(Complete),
      DropMarker,
      DropTransaction(plan.transaction) ]
  }

  function RollbackActive(plan: Plan): Item {
    Guarded(ActivePoint, Is(ActiveIssuer, Some(plan.active)), Unlink(ActiveIssuer, plan.active), Always)
  }

  function RollbackIssuer(e: Named): Item {
    Guarded(IssuerPoint(e.name), Is(Issuer(e.name), Some(e.obj)), Unlink(Issuer(e.name), e.obj), Always)
  }

  function RollbackQuarantine(e: Named): Item {
    Guarded(QuarantinePoint(e.name), Is(Staged(Quarantined(e.name)), Some(e.obj)),
            Publish(Staged(Quarantined(e.name)), Scaffold(e.name), e.obj, [None]), Always)
  }

  /** `side` is where the authority was found when the rollback started. */
  function RollbackConfig(plan: Plan, a: Authority, side: Side): Item {
    Guarded(ConfigPoint(a), Is(Config(a, side), Some(plan.Of(a).configPublished)),
            Publish(Staged(ConfigRollback(a)), Config(a, side), plan.Of(a).configRollback,
                    [Some(plan.Of(a).configPublished)]),
            Always)
  }

  function RollbackRename(plan: Plan, a: Authority): Item {
    Guarded(RenamePoint(a), Exists(Tree(a, GenerationSide)),
            MoveTree(a, GenerationSide, LegacySide, plan.Of(a).tree), Always)
  }

  function RollbackReservation(plan: Plan, a: Authority): Item {
    Guarded(ReservationPoint(a), IsNot(Reservation(a), Some(plan.Of(a).abandoned)),
            Publish(Staged(AbandonedPublish(a)), Reservation(a), plan.Of(a).abandoned,
                    [plan.Of(a).reservationOriginal, Some(plan.Of(a).reserved), Some(plan.Of(a).consumed)]),
            Always)
  }

  function RollbackSession(plan: Plan): Item {
    Guarded(SessionPoint, Is(BackupSession, Some(plan.session)), Unlink(BackupSession, plan.session), Always)
  }

  /** Removal takes whichever of the two provenance paths exists, the stage first. */
  function RollbackProvenance(plan: Plan, d: Disk): Item {
    var path := if ProvenanceStage in d then ProvenanceStage else ProvenanceDir;
    Guarded(ProvenancePoint, Exists(path), RemoveTree(path, plan.provenance), Always)
  }

  function RollbackTail(plan: Plan, origin: Disk): seq<Item> {
    [ RollbackConfig(plan, Root, SideOf(origin, Root)),
      RollbackConfig(plan, Intermediate, SideOf(origin, Intermediate)),
      Locate(Intermediate, plan.intermediate.tree),
      RollbackRename(plan, Intermediate),
      Locate(Root, plan.root.tree),
      RollbackRename(plan, Root),
      RollbackReservation(plan, Root),
      RollbackReservation(plan, Intermediate),
      RollbackSession(plan),
      RollbackProvenance(plan, origin),
      Commit(RolledBack),
      DropMarker ]
  }

  function SideOf(d: Disk, a: Authority): Side {
    if Tree(a, LegacySide) in d then LegacySide else GenerationSide
  }

  /**
   The items of a program. `origin` is the disk when the program starts: a rollback computes the
   authority locations used for the configurations, and finds the provenance, on a disk where
   neither has been moved by the rollback itself.
  */
  function Items(plan: Plan, program: Program, origin: Disk): seq<Item> {
    var n, m := |plan.issuers|, |plan.quarantine|;
    match program
    case Migrate =>
      ForwardHead(plan)
      + seq(n, i requires 0 <= i < n => Do(ResumeIssuer(plan.issuers[i]).op))
      + [Mark(IssuersPublished)]
      + seq(m, i requires 0 <= i < m => Do(ResumeQuarantine(plan.quarantine[i]).op))
      + ForwardTail(plan)
    case Recover(Resume) =>
      ResumeHead(plan)
      + seq(n, i requires 0 <= i < n => ResumeIssuer(plan.issuers[i]))
      + [Mark(IssuersPublished)]
      + seq(m, i requires 0 <= i < m => ResumeQuarantine(plan.quarantine[i]))
      + ResumeTail(plan)
    case Recover(Rollback) =>
      [RollbackActive(plan)]
      + seq(n, i requires 0 <= i < n => RollbackIssuer(plan.issuers[i]))
      + seq(m, i requires 0 <= i < m => RollbackQuarantine(plan.quarantine[i]))
      + RollbackTail(plan, origin)
  }

  datatype Ending = Ending(state: State, outcome: Outcome)

  function RunFrom(items: seq<Item>, n: nat, mode: Option<Action>, s: State, budget: nat): (e: Ending)
    requires n <= |items|
    ensures s.journal.Some? ==> e.state.journal.Some?
    decreases |items| - n
  {
    if n == |items| then Ending(s, Finished)
    else
      var r := RunItem(items[n], mode, s, budget);
      if r.outcome == Running then RunFrom(items, n + 1, mode, r.state, r.budget)
      else Ending(r.state, r.outcome)
  }

  // -------------------------------------------------------------- preflight

  /** Exactly one provenance path is the journaled tree, or a rollback had reached its removal. */
  predicate ProvenanceAccounted(plan: Plan, s: State)
    requires s.journal.Some?
  {
    var staged := Matches(At(s.disk, ProvenanceStage), Some(plan.provenance));
    var published := Matches(At(s.disk, ProvenanceDir), Some(plan.provenance));
    var removed :=
      && s.journal.value.action == Some(Rollback)
      && IsProvenanceStep(s.journal.value.step, Rollback)
      && ProvenanceStage !in s.disk && ProvenanceDir !in s.disk;
    staged != published || removed
  }

  /** The checks that both actions make before the first change. */
  predicate Journaled(plan: Plan, d: Disk) {
    && Matches(At(d, TransactionDir), Some(plan.transaction))
    && (forall a :: JournaledAuthority(plan, d, a))
    && MatchesAny(At(d, BackupSession), [None, Some(plan.session)])
    && MatchesAny(At(d, ActiveIssuer), [None, Some(plan.active)])
    && (forall i :: 0 <= i < |plan.issuers| ==>
          MatchesAny(At(d, Issuer(plan.issuers[i].name)), [None, Some(plan.issuers[i].obj)]))
    && (forall i :: 0 <= i < |plan.quarantine| ==> JournaledQuarantine(plan.quarantine[i], d))
  }

  predicate JournaledAuthority(plan: Plan, d: Disk, a: Authority) {
    var p := plan.Of(a);
    && Located(d, a, p.tree)
    && MatchesAny(At(d, Config(a, SideOf(d, a))),
                  [Some(p.configOriginal), Some(p.configPublished), Some(p.configRollback)])
    && MatchesAny(At(d, Reservation(a)),
                  [p.reservationOriginal, Some(p.reserved), Some(p.consumed), Some(p.abandoned)])
  }

  predicate JournaledQuarantine(e: Named, d: Disk) {
    || (Matches(At(d, Scaffold(e.name)), Some(e.obj)) && Staged(Quarantined(e.name)) !in d)
    || (Scaffold(e.name) !in d && Matches(At(d, Staged(Quarantined(e.name))), Some(e.obj)))
  }

  /** A rollback needs the stages that it is going to publish. */
  predicate RollbackStaged(plan: Plan, d: Disk) {
    forall a ::
      && (Matches(At(d, Config(a, SideOf(d, a))), Some(plan.Of(a).configPublished)) ==>
            Matches(At(d, Staged(ConfigRollback(a))), Some(plan.Of(a).configRollback)))
      && (!Matches(At(d, Reservation(a)), Some(plan.Of(a).abandoned)) ==>
            Matches(At(d, Staged(AbandonedPublish(a))), Some(plan.Of(a).abandoned)))
  }

  predicate ResumeStagedAuthority(plan: Plan, d: Disk, a: Authority) {
    var p := plan.Of(a);
    && (Matches(At(d, Reservation(a)), p.reservationOriginal) ==>
          Matches(At(d, Staged(ReservedPublish(a))), Some(p.reserved)))
    && (!Matches(At(d, Reservation(a)), Some(p.consumed)) ==>
          Matches(At(d, Staged(ConsumedPublish(a))), Some(p.consumed)))
    && (Matches(At(d, Config(a, SideOf(d, a))), Some(p.configOriginal)) ==>
          Matches(At(d, Staged(ConfigNew(a))), Some(p.configPublished)))
  }

  predicate ResumeStaged(plan: Plan, d: Disk) {
    && (Matches(At(d, BackupSession), None) ==> Matches(At(d, Staged(SessionPublish)), Some(plan.session)))
    && (forall a :: ResumeStagedAuthority(plan, d, a))
    && (forall i :: 0 <= i < |plan.issuers| ==>
          Matches(At(d, Issuer(plan.issuers[i].name)), None) ==>
            Matches(At(d, Staged(IssuerStage(plan.issuers[i].name))), Some(plan.issuers[i].obj)))
    && (Matches(At(d, ActiveIssuer), None) ==> Matches(At(d, Staged(ActivePublish)), Some(plan.active)))
  }

  predicate Preflight(plan: Plan, s: State, action: Action)
    requires s.journal.Some?
  {
    && ProvenanceAccounted(plan, s)
    && Journaled(plan, s.disk)
    && match action
       case Rollback => RollbackStaged(plan, s.disk)
       case Resume => ResumeStaged(plan, s.disk)
  }

  // --------------------------------------------------------------- commands

  /** `platform-pki-ca-rollover migrate`, once its evidence is staged, killed after `budget` changes. */
  function RunMigrate(plan: Plan, initial: Disk, budget: nat): Ending {
    RunFrom(Items(plan, Migrate, initial), 0, None, State(initial, None, false), budget)
  }

  /** `platform-pki-ca-rollover recover --action ...`, killed after `budget` changes. */
  function RunRecover(plan: Plan, action: Action, s: State, budget: nat): Ending {
    if s.journal.None? || s.journal.value.committed || !Preflight(plan, s, action)
    then Ending(s, Refused)
    else RunFrom(Items(plan, Recover(action), s.disk), 0, Some(action), s, budget)
  }
}
