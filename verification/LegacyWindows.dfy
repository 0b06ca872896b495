/**
 The crash windows are real: for every transaction there is a short history that ends in a state
 which no command can leave and which the gate never accepts.
*/
module LegacyWindows {
  import opened Options
  import opened LegacyModel
  import opened LegacyProgram
  import opened LegacyInvariant
  import opened LegacySteps
  import opened LegacyRollback
  import opened LegacyResume
  import opened LegacyForward
  import opened LegacyConvergence
  import opened LegacyHistory
  import opened LegacyCuts

  /** Only the first journal record has been written. */
  lemma FirstRecord(plan: Plan, initial: Disk)
    ensures AfterMigration(plan, initial, 1, false)
         == State(initial, Some(Journal(PreMutation, None, NoStep, false)), false)
  {
    ForwardItems(plan, initial);
    var items := Items(plan, Migrate, initial);
    var s := State(initial, Some(Journal(PreMutation, None, NoStep, false)), false);
    assert RunFrom(items, 0, None, State(initial, None, false), 1) == RunFrom(items, 1, None, s, 0);
    assert RunFrom(items, 1, None, s, 0) == Ending(s, Crashed);
  }

  /** Before anything is published, a rollback has nothing to do until it reaches the reservations. */
  lemma {:induction false} NothingToWithdraw(plan: Plan, initial: Disk, items: seq<Item>, k: nat, s: State, budget: nat)
    requires WellFormed(plan) && Initial(plan, initial) && s.disk == initial
    requires IsRollback(items, plan, initial) && k <= Base(plan) + 6
    ensures RunFrom(items, k, Some(Rollback), s, budget) == RunFrom(items, Base(plan) + 6, Some(Rollback), s, budget)
    decreases Base(plan) + 6 - k
  {
    hide RunItem, Depicts, WellFormed;
    if k < Base(plan) + 6 {
      IdleItem(plan, initial, items, k, s, budget);
      NothingToWithdraw(plan, initial, items, k + 1, s, budget);
    }
  }

  lemma IdleItem(plan: Plan, initial: Disk, items: seq<Item>, k: nat, s: State, budget: nat)
    requires WellFormed(plan) && Initial(plan, initial) && s.disk == initial
    requires IsRollback(items, plan, initial) && k < Base(plan) + 6
    ensures RunItem(items[k], Some(Rollback), s, budget) == Progress(s, Running, budget)
  {
    hide Exec, Depicts, RunItem, Expected;
    var v, n, b := InitialView(plan), |plan.issuers|, Base(plan);
    if k == 0 {
      IdleActive(plan, initial, s, budget);
    } else if k < 1 + n {
      assert items[1 + (k - 1)] == RollbackIssuer(plan.issuers[k - 1]);
      IdleIssuer(plan, initial, k - 1, s, budget);
    } else if k < b {
      var i := k - 1 - n;
      assert items[1 + n + i] == RollbackQuarantine(plan.quarantine[i]);
      IdleQuarantine(plan, initial, i, s, budget);
    } else {
      IdleAuthority(plan, initial, if k in {b, b + 4, b + 5} then Root else Intermediate, s, budget);
    }
  }

  lemma IdleActive(plan: Plan, initial: Disk, s: State, budget: nat)
    requires Initial(plan, initial) && s.disk == initial
    ensures RunItem(RollbackActive(plan), Some(Rollback), s, budget) == Progress(s, Running, budget)
  {
    assert At(initial, ActiveIssuer) == Expected(plan, initial, InitialView(plan), ActiveIssuer);
  }

  lemma IdleIssuer(plan: Plan, initial: Disk, i: nat, s: State, budget: nat)
    requires WellFormed(plan) && Initial(plan, initial) && s.disk == initial && i < |plan.issuers|
    ensures RunItem(RollbackIssuer(plan.issuers[i]), Some(Rollback), s, budget) == Progress(s, Running, budget)
  {
    hide Expected;
    IssuerReads(plan, initial, InitialView(plan), initial, i);
  }

  lemma IdleQuarantine(plan: Plan, initial: Disk, i: nat, s: State, budget: nat)
    requires WellFormed(plan) && Initial(plan, initial) && s.disk == initial && i < |plan.quarantine|
    ensures RunItem(RollbackQuarantine(plan.quarantine[i]), Some(Rollback), s, budget) == Progress(s, Running, budget)
  {
    hide Expected;
    QuarantineReads(plan, initial, InitialView(plan), initial, i);
  }

  lemma IdleAuthority(plan: Plan, initial: Disk, a: Authority, s: State, budget: nat)
    requires WellFormed(plan) && Initial(plan, initial) && s.disk == initial
    ensures RunItem(RollbackConfig(plan, a, SideOf(initial, a)), Some(Rollback), s, budget) == Progress(s, Running, budget)
    ensures RunItem(Locate(a, plan.Of(a).tree), Some(Rollback), s, budget) == Progress(s, Running, budget)
    ensures RunItem(RollbackRename(plan, a), Some(Rollback), s, budget) == Progress(s, Running, budget)
  {
    hide Expected, Exec;
    ConfigReads(plan, initial, InitialView(plan), initial, a);
    LocatedInView(plan, initial, InitialView(plan), initial, a);
  }

  /** A guarded item that runs to its end. */
  lemma Fires(plan: Plan, initial: Disk, v: View, item: Item, s: State, budget: nat)
    requires item.Guarded? && Test(item.guard, s.disk) && Exec(item.op, s.disk).Some? && budget >= 3
    ensures RunItem(item, Some(Rollback), s, budget)
         == Progress(Checkpoint(s.(disk := Exec(item.op, s.disk).value), Rollback, Done(Rollback, item.point)), Running, budget - 3)
  {
  }

  /** Abandoning one reservation, the next item still ahead. */
  lemma Abandons(plan: Plan, initial: Disk, items: seq<Item>, a: Authority, v: View, s: State, budget: nat) returns (t: State)
    requires WellFormed(plan) && IsRollback(items, plan, initial)
    requires Depicts(plan, initial, v, s.disk) && v.transaction && !v.Of(a).abandoned && budget >= 3
    ensures var k := Base(plan) + (if a == Root then 6 else 7);
      RunFrom(items, k, Some(Rollback), s, budget) == RunFrom(items, k + 1, Some(Rollback), t, budget - 3)
    ensures Depicts(plan, initial, v.With(a, v.Of(a).(abandoned := true)), t.disk) && t.marker == s.marker
    ensures t.journal == Some(Journal(Recovering, Some(Rollback), Done(Rollback, ReservationPoint(a)), false))
  {
    hide Expected, Exec, RunItem, WellFormed, Depicts;
    ReservationReads(plan, initial, v, s.disk, a);
    ReservationAbandons(plan, initial, v, s.disk, a);
    var item := RollbackReservation(plan, a);
    Fires(plan, initial, v, item, s, budget);
    t := Checkpoint(s.(disk := Exec(item.op, s.disk).value), Rollback, Done(Rollback, item.point));
  }

  /** What is left when the provenance goes first and the record of it is not written. */
  function StrippedView(plan: Plan): View {
    var x := AuthorityView(LegacySide, Original, NotReserved, true);
    InitialView(plan).(root := x, intermediate := x, provenance := Removed)
  }

  const PENDING_REMOVAL := Journal(Recovering, Some(Rollback), Pending(Rollback, ProvenancePoint), false)

  /** A rollback of the untouched transaction, killed right after it removed the provenance. */
  lemma KilledAfterRemoval(plan: Plan, initial: Disk)
    requires WellFormed(plan) && Initial(plan, initial)
    ensures var r := RunRecover(plan, Rollback, AfterMigration(plan, initial, 1, false), 8).state;
      && r.journal == Some(PENDING_REMOVAL) && !r.marker
      && Depicts(plan, initial, StrippedView(plan), r.disk) && Stripped(r.disk)
  {
    hide Expected, Exec, RunItem, Depicts, RunFrom, Items, WellFormed, Preflight, ProvenanceAccounted, StagedObject;
    FirstRecord(plan, initial);
    var s, v, b := AfterMigration(plan, initial, 1, false), InitialView(plan), Base(plan);
    assert Consistent(plan, initial, v, s);
    RollbackPreflight(plan, initial, v, s);
    AccountedInView(plan, initial, v, s);
    RollbackItems(plan, initial);
    var items := Items(plan, Recover(Rollback), initial);
    NothingToWithdraw(plan, initial, items, 0, s, 8);
    var t := Abandons(plan, initial, items, Root, v, s, 8);
    v := v.With(Root, v.root.(abandoned := true));
    var u := Abandons(plan, initial, items, Intermediate, v, t, 5);
    v := v.With(Intermediate, v.intermediate.(abandoned := true));
    KilledAtRemoval(plan, initial, items, v, u);
    assert v.(provenance := Removed) == StrippedView(plan);
  }

  lemma KilledAtRemoval(plan: Plan, initial: Disk, items: seq<Item>, v: View, u: State)
    requires |items| == Base(plan) + 12
    requires items[Base(plan) + 8] == RollbackSession(plan) && items[Base(plan) + 9] == RollbackProvenance(plan, initial)
    requires Depicts(plan, initial, v, u.disk)
    requires Depicts(plan, initial, InitialView(plan), initial)
    requires v.session == Staging && v.provenance == Staging
    ensures var e := RunFrom(items, Base(plan) + 8, Some(Rollback), u, 2);
      && e.state.journal == Some(PENDING_REMOVAL) && e.state.marker == u.marker
      && Depicts(plan, initial, v.(provenance := Removed), e.state.disk) && Stripped(e.state.disk)
  {
    hide Exec, Depicts, RunItem;
    SessionIdle(plan, initial, v, u);
    ProvenanceReads(plan, initial, v, u.disk);
    ProvenanceReads(plan, initial, InitialView(plan), initial);
    ProvenanceRemoves(plan, initial, v, u.disk);
    var item := RollbackProvenance(plan, initial);
    var d := Exec(item.op, u.disk).value;
    ProvenanceReads(plan, initial, v.(provenance := Removed), d);
    CutBeforeDone(item, u);
  }

  lemma SessionIdle(plan: Plan, initial: Disk, v: View, u: State)
    requires Depicts(plan, initial, v, u.disk) && v.session == Staging
    ensures RunItem(RollbackSession(plan), Some(Rollback), u, 2) == Progress(u, Running, 2)
  {
    assert At(u.disk, BackupSession) == Expected(plan, initial, v, BackupSession);
  }

  lemma CutBeforeDone(item: Item, u: State)
    requires item.Guarded? && Test(item.guard, u.disk) && Exec(item.op, u.disk).Some?
    ensures RunItem(item, Some(Rollback), u, 2)
         == Progress(Checkpoint(u, Rollback, Pending(Rollback, item.point)).(disk := Exec(item.op, u.disk).value), Crashed, 0)
  {
  }

  /** From there a finished rollback is committed with a step that the gate does not accept, for ever. */
  lemma RemovalWindow(plan: Plan, initial: Disk, history: seq<Command>)
    requires WellFormed(plan) && Initial(plan, initial)
    ensures var r := RunRecover(plan, Rollback, AfterMigration(plan, initial, 1, false), 8).state;
            var e := RunRecover(plan, Rollback, r, RollbackCost(plan));
      e.outcome == Finished && Undone(plan, initial, e.state.disk) && !GateAccepts(Replay(plan, e.state, history))
  {
    hide RunRecover, Undone;
    var s := AfterMigration(plan, initial, 1, false);
    var r := RunRecover(plan, Rollback, s, 8).state;
    KilledAfterRemoval(plan, initial);
    MigrationKeeps(plan, initial, 1, false);
    CommandKeeps(plan, initial, Command(Rollback, 8), s);
    RollbackConverges(plan, initial, r, RollbackCost(plan));
    RollbackPassesGate(plan, initial, r, RollbackCost(plan));
    GateVerdictIsFinal(plan, RunRecover(plan, Rollback, r, RollbackCost(plan)).state, history);
  }

  /** And a resume begun there, killed after its first record, leaves a transaction that nothing can finish. */
  lemma ResumeWindow(plan: Plan, initial: Disk, history: seq<Command>)
    requires WellFormed(plan) && Initial(plan, initial)
    ensures var r := RunRecover(plan, Rollback, AfterMigration(plan, initial, 1, false), 8).state;
            var t := RunRecover(plan, Resume, r, 1).state;
      Replay(plan, t, history) == t && !GateAccepts(t)
  {
    hide RunFrom, RunItem, Expected;
    var s := AfterMigration(plan, initial, 1, false);
    var r := RunRecover(plan, Rollback, s, 8).state;
    KilledAfterRemoval(plan, initial);
    MigrationKeeps(plan, initial, 1, false);
    CommandKeeps(plan, initial, Command(Rollback, 8), s);
    ResumeBegins(plan, initial, r);
    ResumeAfterRemovalStrands(plan, initial, r, 1, history);
  }

  lemma ResumeBegins(plan: Plan, initial: Disk, r: State)
    requires WellFormed(plan) && r.journal == Some(PENDING_REMOVAL) && Depicts(plan, initial, StrippedView(plan), r.disk)
    ensures RunRecover(plan, Resume, r, 1).state != r
  {
    hide RunFrom, RunItem, StagedObject, IsResume, WellFormed;
    var v := StrippedView(plan);
    assert Consistent(plan, initial, v, r);
    AccountedInView(plan, initial, v, r);
    ResumePreflight(plan, initial, v, r);
    ResumeItems(plan, r.disk);
    var items := Items(plan, Recover(Resume), r.disk);
    assert items[0] == ResumeSession(plan) by { assert IsResume(items, plan); IsResumeFirst(items, plan); }
    assert At(r.disk, BackupSession) == Expected(plan, initial, v, BackupSession);
    FirstCheckpoint(items, r);
  }

  lemma IsResumeFirst(items: seq<Item>, plan: Plan)
    requires IsResume(items, plan)
    ensures |items| > 0 && items[0] == ResumeSession(plan)
  {
  }

  lemma FirstCheckpoint(items: seq<Item>, r: State)
    requires |items| > 0 && items[0].Guarded? && Test(items[0].guard, r.disk) && r.journal == Some(PENDING_REMOVAL)
    ensures RunFrom(items, 0, Some(Resume), r, 1).state != r
  {
  }

  /** A rollback of the untouched transaction, killed once it has abandoned the first reservation. */
  lemma KilledAfterAbandoning(plan: Plan, initial: Disk)
    requires WellFormed(plan) && Initial(plan, initial)
    ensures var r := RunRecover(plan, Rollback, AfterMigration(plan, initial, 1, false), 3).state;
            var v := InitialView(plan).With(Root, InitialView(plan).root.(abandoned := true));
      && Active(plan, initial, v, r) && r.journal.value.action == Some(Rollback)
  {
    hide Expected, Exec, RunItem, Depicts, RunFrom, Items, WellFormed, Preflight, ProvenanceAccounted, StagedObject;
    FirstRecord(plan, initial);
    var s, v := AfterMigration(plan, initial, 1, false), InitialView(plan);
    assert Consistent(plan, initial, v, s);
    RollbackPreflight(plan, initial, v, s);
    AccountedInView(plan, initial, v, s);
    RollbackItems(plan, initial);
    var items := Items(plan, Recover(Rollback), initial);
    NothingToWithdraw(plan, initial, items, 0, s, 3);
    var t := Abandons(plan, initial, items, Root, v, s, 3);
    ReservationWaits(plan, initial, items, v.With(Root, v.root.(abandoned := true)), t);
  }

  lemma ReservationWaits(plan: Plan, initial: Disk, items: seq<Item>, v: View, t: State)
    requires WellFormed(plan) && IsRollback(items, plan, initial)
    requires Depicts(plan, initial, v, t.disk) && !v.intermediate.abandoned
    ensures RunFrom(items, Base(plan) + 7, Some(Rollback), t, 0) == Ending(t, Crashed)
  {
    hide Expected, Exec, Depicts, WellFormed;
    ReservationReads(plan, initial, v, t.disk, Intermediate);
  }

  /** A resume begun there passes its first checks, changes things, and is refused when it is to consume the reservation. */
  lemma RefusedLate(plan: Plan, initial: Disk)
    requires WellFormed(plan) && Initial(plan, initial)
    ensures var r := RunRecover(plan, Rollback, AfterMigration(plan, initial, 1, false), 3).state;
            var e := RunRecover(plan, Resume, r, ResumeCost(plan));
      e.outcome == Refused && e.state != r
  {
    hide RunFrom, Items, Expected, Depicts, WellFormed, Preflight, NothingWithdrawn, Initial;
    KilledAfterAbandoning(plan, initial);
    var r := RunRecover(plan, Rollback, AfterMigration(plan, initial, 1, false), 3).state;
    var v := InitialView(plan).With(Root, InitialView(plan).root.(abandoned := true));
    ResumePreflight(plan, initial, v, r);
    AccountedInView(plan, initial, v, r);
    NothingWithdrawnInView(plan, initial, v, r.disk);
    RefusedExactly(plan, initial, r);
  }

  /** The untouched transaction from which the windows of `LegacyCuts` open, with or without a marker. */
  lemma WindowsOpen(plan: Plan, initial: Disk)
    returns (publication: nat, marker: nat)
    requires WellFormed(plan) && Initial(plan, initial)
    ensures var s := AfterMigration(plan, initial, 1, true);
            var r := RunRecover(plan, Resume, s, publication).state;
            var e := RunRecover(plan, Resume, r, ResumeCost(plan));
      e.outcome == Finished && forall history: seq<Command> :: !GateAccepts(Replay(plan, e.state, history))
    ensures var r := RunRecover(plan, Resume, AfterMigration(plan, initial, 1, true), marker).state;
      && r.journal.Some? && r.journal.value.committed && r.marker
      && forall history: seq<Command> :: Replay(plan, r, history) == r && !GateAccepts(Replay(plan, r, history))
  {
    hide RunFrom, Items, Expected, RunMigrate, Preflight, WellFormed, NothingWithdrawn, Inv;
    MigrationKeeps(plan, initial, 1, true);
    FirstRecordMarked(plan, initial);
    var s := AfterMigration(plan, initial, 1, true);
    ResumeConverges(plan, initial, s, ResumeCost(plan));
    publication := PublicationWindow(plan, initial, s, ResumeCost(plan));
    marker := MarkerWindow(plan, initial, Resume, s, ResumeCost(plan));
  }

  lemma FirstRecordMarked(plan: Plan, initial: Disk)
    requires Initial(plan, initial)
    ensures AfterMigration(plan, initial, 1, true) == State(initial, Some(Journal(PreMutation, None, NoStep, false)), true)
    ensures ProvenanceStage in initial
  {
    hide RunMigrate;
    FirstRecord(plan, initial);
    assert At(initial, ProvenanceStage) == Expected(plan, initial, InitialView(plan), ProvenanceStage);
  }

  // ---------------------------------------------------------------- a migration

  function SomeAuthority(n: nat): AuthorityPlan {
    AuthorityPlan(Object(n, Bytes("tree")), Object(n + 1, Bytes("old")), Object(n + 2, Bytes("new")), Object(n + 3, Bytes("old")), None,
                  Object(n + 4, Bytes("reserved")), Object(n + 5, Bytes("consumed")),
                  Object(n + 6, ReservationRecord("g1", "root", AbandonedStatus, "print", "source")), "g1", "root", "print", "source")
  }

  /** A migration of one service with one quarantine file. */
  function SomePlan(): Plan {
    var file := Object(20, Bytes("env"));
    Plan(SomeAuthority(0), SomeAuthority(10), Object(30, Bytes("session")), Object(31, Bytes("active")),
         [Named("web", Object(32, Bytes("issuer")))], [Named("pki.env", file)],
         Object(33, Archive(map["pki.env" := file.content])), Object(34, Bytes("transaction")))
  }

  function SomeDisk(plan: Plan): Disk
    requires |plan.issuers| == 1 && |plan.quarantine| == 1
  {
    map[TransactionDir := plan.transaction, ProvenanceStage := plan.provenance,
        Tree(Root, LegacySide) := plan.root.tree, Tree(Intermediate, LegacySide) := plan.intermediate.tree,
        Config(Root, LegacySide) := plan.root.configOriginal, Config(Intermediate, LegacySide) := plan.intermediate.configOriginal,
        Scaffold("pki.env") := plan.quarantine[0].obj,
        Staged(SessionPublish) := plan.session, Staged(ActivePublish) := plan.active,
        Staged(ReservedPublish(Root)) := plan.root.reserved, Staged(ReservedPublish(Intermediate)) := plan.intermediate.reserved,
        Staged(ConsumedPublish(Root)) := plan.root.consumed, Staged(ConsumedPublish(Intermediate)) := plan.intermediate.consumed,
        Staged(AbandonedPublish(Root)) := plan.root.abandoned, Staged(AbandonedPublish(Intermediate)) := plan.intermediate.abandoned,
        Staged(ConfigNew(Root)) := plan.root.configPublished, Staged(ConfigNew(Intermediate)) := plan.intermediate.configPublished,
        Staged(ConfigRollback(Root)) := plan.root.configRollback,
        Staged(ConfigRollback(Intermediate)) := plan.intermediate.configRollback,
        Staged(IssuerStage("web")) := plan.issuers[0].obj]
  }

  /** There is a transaction that the theorems speak of. */
  lemma SomeMigration()
    ensures WellFormed(SomePlan()) && Initial(SomePlan(), SomeDisk(SomePlan()))
  {
    hide Expected, SomeDisk;
    var plan := SomePlan();
    assert plan.quarantine[0].name == "pki.env" && plan.issuers[0].name == "web";
    forall p ensures At(SomeDisk(plan), p) == Expected(plan, SomeDisk(plan), InitialView(plan), p) {
      if !p.Staged? { SomeOther(p); } else if IsFile(p.slot) { SomeStagedFile(p.slot); } else { SomeStagedRecord(p.slot); }
    }
  }

  predicate IsFile(slot: Slot) { slot.IssuerStage? || slot.Quarantined? }

  lemma SomeStagedFile(slot: Slot)
    requires IsFile(slot)
    ensures At(SomeDisk(SomePlan()), Staged(slot)) == Expected(SomePlan(), SomeDisk(SomePlan()), InitialView(SomePlan()), Staged(slot))
  {
    hide SomeAuthority;
    var plan := SomePlan();
    assert InitialView(plan).issuers == [Staging] && InitialView(plan).quarantined == [false];
    OneName(plan.issuers);
    OneName(plan.quarantine);
  }

  lemma SomeStagedRecord(slot: Slot)
    requires !IsFile(slot)
    ensures At(SomeDisk(SomePlan()), Staged(slot)) == Expected(SomePlan(), SomeDisk(SomePlan()), InitialView(SomePlan()), Staged(slot))
  {
    hide SomeAuthority, IndexOf;
  }

  lemma SomeOther(p: Path)
    requires !p.Staged?
    ensures At(SomeDisk(SomePlan()), p) == Expected(SomePlan(), SomeDisk(SomePlan()), InitialView(SomePlan()), p)
  {
    hide StagedObject;
    var plan := SomePlan();
    assert InitialView(plan).issuers == [Staging] && InitialView(plan).quarantined == [false];
    OneName(plan.issuers);
    OneName(plan.quarantine);
  }

  lemma OneName(s: seq<Named>)
    requires |s| == 1
    ensures forall name :: IndexOf(s, name) == if s[0].name == name then Some(0) else None
  {
  }
}
