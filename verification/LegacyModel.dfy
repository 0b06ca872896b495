/**
 The data of one legacy migration: the names on disk that the transaction may touch, the
 objects it stages, and the journal it writes.

 A directory tree is represented by the name of its root together with the names of its
 members, so that renaming the root carries every member along.
*/
module LegacyModel {
  import opened Options

  datatype Authority = Root | Intermediate

  /** The two homes of an authority tree: `root-ca` and `authorities/roots/g1`, say. */
  datatype Side = LegacySide | GenerationSide

  datatype Status = ReservedStatus | ConsumedStatus | AbandonedStatus

  datatype Content =
    | ReservationRecord(generation: string, kind: string, status: Status, fingerprint: string, source: string)
    | Archive(copies: map<string, Content>)
    | Bytes(data: string)

  /** A filesystem object. Its `id` stands for the rename-stable identity state. */
  datatype Object = Object(id: nat, content: Content)

  datatype Slot =
    | SessionPublish
    | ActivePublish
    | ReservedPublish(a: Authority)
    | ConsumedPublish(a: Authority)
    | AbandonedPublish(a: Authority)
    | ConfigNew(a: Authority)
    | ConfigRollback(a: Authority)
    | IssuerStage(service: string)
    | Quarantined(basename: string)

  datatype Path =
    | BackupSession
    | ActiveIssuer
    | TransactionDir
    | ProvenanceStage
    | ProvenanceDir
    | Reservation(a: Authority)
    | Tree(a: Authority, side: Side)
    | Member(a: Authority, side: Side, name: string)
    | Issuer(service: string)
    | Scaffold(basename: string)
    | Staged(slot: Slot)
    | Elsewhere(path: string)

  type Disk = map<Path, Object>

  const CONFIG := "openssl.cnf"

  function Config(a: Authority, side: Side): Path {
    Member(a, side, CONFIG)
  }

  function At(d: Disk, p: Path): Option<Object> {
    if p in d then Some(d[p]) else None
  }

  /** Whether what is on disk has the journaled identity. Contents are not compared. */
  predicate Matches(actual: Option<Object>, expected: Option<Object>) {
    match (actual, expected)
    case (None, None) => true
    case (Some(x), Some(y)) => x.id == y.id
    case _ => false
  }

  predicate MatchesAny(actual: Option<Object>, expected: seq<Option<Object>>) {
    exists i :: 0 <= i < |expected| && Matches(actual, expected[i])
  }

  // ---------------------------------------------------------------- the plan

  datatype AuthorityPlan = AuthorityPlan(
    tree: Object,
    configOriginal: Object,
    configPublished: Object,
    configRollback: Object,
    reservationOriginal: Option<Object>,
    reserved: Object,
    consumed: Object,
    abandoned: Object,
    generation: string,
    kind: string,
    fingerprint: string,
    source: string)

  datatype Named = Named(name: string, obj: Object)

  /** The journaled evidence of one transaction: everything recovery reads back. */
  datatype Plan = Plan(
    root: AuthorityPlan,
    intermediate: AuthorityPlan,
    session: Object,
    active: Object,
    issuers: seq<Named>,
    quarantine: seq<Named>,
    provenance: Object,
    transaction: Object)
  {
    function Of(a: Authority): AuthorityPlan {
      match a
      case Root => root
      case Intermediate => intermediate
    }
  }

  predicate DistinctNames(s: seq<Named>) {
    forall i, j :: 0 <= i < j < |s| ==> s[i].name != s[j].name
  }

  predicate WellFormedAuthority(p: AuthorityPlan) {
    && p.configOriginal.id != p.configPublished.id
    && p.configOriginal.id != p.configRollback.id
    && p.configPublished.id != p.configRollback.id
    && p.reserved.id != p.consumed.id
    && p.reserved.id != p.abandoned.id
    && p.consumed.id != p.abandoned.id
    && (p.reservationOriginal.Some? ==>
          p.reservationOriginal.value.id !in {p.reserved.id, p.consumed.id, p.abandoned.id})
    && p.configRollback.content == p.configOriginal.content
    && p.abandoned.content == ReservationRecord(p.generation, p.kind, AbandonedStatus, p.fingerprint, p.source)
  }

  /**
   What building the transaction establishes: staged objects that coexist on disk have
   different identities, the rollback configuration is a copy of the original one, the
   abandoned reservation is the record a later migration can adopt, and the provenance
   holds a copy of every quarantined file.
  */
  predicate WellFormed(plan: Plan) {
    && WellFormedAuthority(plan.root)
    && WellFormedAuthority(plan.intermediate)
    && DistinctNames(plan.issuers)
    && DistinctNames(plan.quarantine)
    && plan.provenance.content.Archive?
    && forall i :: 0 <= i < |plan.quarantine| ==>
         && plan.quarantine[i].name in plan.provenance.content.copies
         && plan.provenance.content.copies[plan.quarantine[i].name] == plan.quarantine[i].obj.content
  }

  // ------------------------------------------------------------- the journal

  datatype Action = Resume | Rollback

  datatype Point =
    | SessionPoint
    | ReservationPoint(a: Authority)
    | ConsumePoint(a: Authority)
    | RenamePoint(a: Authority)
    | ConfigPoint(a: Authority)
    | IssuerPoint(service: string)
    | QuarantinePoint(basename: string)
    | ActivePoint
    | ProvenancePoint

  /** `recovery_step`: none, `<action>-<point>-pending` or `<action>-<point>-done`. */
  datatype Step = NoStep | Pending(action: Action, point: Point) | Done(action: Action, point: Point)

  datatype Phase =
    | PreMutation | ReservedPhase | RootRenamed | IntermediateRenamed | ConfigsPublished
    | IssuersPublished | QuarantinedPhase | ActivePending | ActivePublished
    | ProvenancePublished | Complete | Recovering | RolledBack

  datatype Journal = Journal(phase: Phase, action: Option<Action>, step: Step, committed: bool)

  /** Everything that survives a crash. `journal` is `None` until this transaction writes it. */
  datatype State = State(disk: Disk, journal: Option<Journal>, marker: bool)

  predicate IsProvenanceStep(step: Step, action: Action) {
    !step.NoStep? && step.action == action && step.point == ProvenancePoint
  }
}
