/**
 Whole histories: a migration killed anywhere, then any sequence of resumes and rollbacks, each
 killed anywhere or refused. Safety over all of them, and what a final command then achieves.
*/
module LegacyHistory {
  import opened Options
  import opened LegacyModel
  import opened LegacyProgram
  import opened LegacyInvariant
  import opened LegacySteps
  import opened LegacyRollback
  import opened LegacyResume
  import opened LegacyForward
  import opened LegacyConvergence

  datatype Command = Command(action: Action, budget: nat)

  /** A migration killed after `budget` changes; a failing one may still publish the recovery marker. */
  function AfterMigration(plan: Plan, initial: Disk, budget: nat, marked: bool): State {
    var s := RunMigrate(plan, initial, budget).state;
    if s.journal.Some? && !s.journal.value.committed && marked then s.(marker := true) else s
  }

  function Replay(plan: Plan, s: State, history: seq<Command>): State
    decreases |history|
  {
    if history == [] then s
    else
      var rest := Replay(plan, s, history[..|history| - 1]);
      RunRecover(plan, history[|history| - 1].action, rest, history[|history| - 1].budget).state
  }

  function Reached(plan: Plan, initial: Disk, budget: nat, marked: bool, history: seq<Command>): State {
    Replay(plan, AfterMigration(plan, initial, budget, marked), history)
  }

  lemma MigrationKeeps(plan: Plan, initial: Disk, budget: nat, marked: bool)
    requires WellFormed(plan) && Initial(plan, initial)
    ensures var s := AfterMigration(plan, initial, budget, marked);
      && Inv(plan, initial, s) && Traced(plan, s)
      && (s.journal.Some? <==> budget > 0)
      && (s.journal.Some? && !s.journal.value.committed ==>
            NothingWithdrawn(plan, s.disk) && s.journal.value.step == NoStep)
  {
    ForwardFrom(plan, initial, budget);
    var e := RunMigrate(plan, initial, budget);
    var s := AfterMigration(plan, initial, budget, marked);
    if budget == 0 { NothingWritten(plan, initial); }
    var j :| 0 <= j <= ForwardTailStart(plan) + 11 && Consistent(plan, initial, ForwardView(plan, j), e.state);
    assert Consistent(plan, initial, ForwardView(plan, j), s);
    if s.journal.Some? && !s.journal.value.committed {
      AccountedInView(plan, initial, ForwardView(plan, j), s);
      NothingWithdrawnInView(plan, initial, ForwardView(plan, j), s.disk);
    }
  }

  lemma NothingWritten(plan: Plan, initial: Disk)
    ensures RunMigrate(plan, initial, 0).state == State(initial, None, false)
  {
    ForwardItems(plan, initial);
  }

  lemma CommandKeeps(plan: Plan, initial: Disk, c: Command, s: State)
    requires WellFormed(plan) && Initial(plan, initial) && Inv(plan, initial, s)
    ensures Inv(plan, initial, RunRecover(plan, c.action, s, c.budget).state)
  {
    if s.journal.Some? && !s.journal.value.committed {
      match c.action
      case Rollback => RollbackConverges(plan, initial, s, c.budget);
      case Resume => ResumeConverges(plan, initial, s, c.budget);
    }
  }

  /** The invariant holds after every history, whatever its commands and wherever they were killed. */
  lemma {:induction false} HistoryKeeps(plan: Plan, initial: Disk, budget: nat, marked: bool, history: seq<Command>)
    requires WellFormed(plan) && Initial(plan, initial)
    ensures Inv(plan, initial, Reached(plan, initial, budget, marked, history))
    decreases |history|
  {
    if history == [] {
      MigrationKeeps(plan, initial, budget, marked);
    } else {
      var n := |history| - 1;
      HistoryKeeps(plan, initial, budget, marked, history[..n]);
      CommandKeeps(plan, initial, history[n], Reached(plan, initial, budget, marked, history[..n]));
    }
  }

  // ----------------------------------------------------------------- safety

  ghost predicate AuthorityInPlace(plan: Plan, a: Authority, initial: Disk, d: Disk) {
    && TreeAt(plan, a, GenerationSide, initial, d)
    && At(d, Config(a, GenerationSide)) == Some(plan.Of(a).configPublished)
    && At(d, Reservation(a)) == Some(plan.Of(a).consumed)
  }

  ghost predicate InPlace(plan: Plan, initial: Disk, d: Disk) {
    && At(d, BackupSession) == Some(plan.session)
    && AuthorityInPlace(plan, Root, initial, d) && AuthorityInPlace(plan, Intermediate, initial, d)
    && (forall i :: 0 <= i < |plan.issuers| ==> At(d, Issuer(plan.issuers[i].name)) == Some(plan.issuers[i].obj))
    && (forall i :: 0 <= i < |plan.quarantine| ==> Scaffold(plan.quarantine[i].name) !in d)
  }

  lemma ViewInPlace(plan: Plan, initial: Disk, v: View, d: Disk)
    requires WellFormed(plan) && Depicts(plan, initial, v, d) && AllPublished(v)
    ensures InPlace(plan, initial, d)
  {
    assert At(d, BackupSession) == Expected(plan, initial, v, BackupSession);
    forall a ensures AuthorityInPlace(plan, a, initial, d) {
      DepictedTree(plan, initial, v, d, a);
      assert At(d, Config(a, GenerationSide)) == Expected(plan, initial, v, Config(a, GenerationSide));
      assert At(d, Reservation(a)) == Expected(plan, initial, v, Reservation(a));
    }
    forall i | 0 <= i < |plan.issuers| ensures At(d, Issuer(plan.issuers[i].name)) == Some(plan.issuers[i].obj) {
      IssuerReads(plan, initial, v, d, i);
    }
    forall i | 0 <= i < |plan.quarantine| ensures Scaffold(plan.quarantine[i].name) !in d {
      QuarantineReads(plan, initial, v, d, i);
    }
  }

  /** Over every history: the active issuer manifest is present only when all it refers to is in place. */
  lemma ActiveOnlyWhenInPlace(plan: Plan, initial: Disk, budget: nat, marked: bool, history: seq<Command>)
    requires WellFormed(plan) && Initial(plan, initial)
    ensures var d := Reached(plan, initial, budget, marked, history).disk;
      ActiveIssuer in d ==> At(d, ActiveIssuer) == Some(plan.active) && InPlace(plan, initial, d)
  {
    HistoryKeeps(plan, initial, budget, marked, history);
    var s := Reached(plan, initial, budget, marked, history);
    var v :| Consistent(plan, initial, v, s);
    assert At(s.disk, ActiveIssuer) == Expected(plan, initial, v, ActiveIssuer);
    if v.active == Published { ViewInPlace(plan, initial, v, s.disk); }
  }

  /** The bytes of a quarantined file: at their source, in the transaction, or in published provenance. */
  predicate BytesKept(plan: Plan, e: Named, d: Disk) {
    || (Scaffold(e.name) in d && d[Scaffold(e.name)].content == e.obj.content)
    || (Staged(Quarantined(e.name)) in d && d[Staged(Quarantined(e.name))].content == e.obj.content)
    || (ProvenanceDir in d && d[ProvenanceDir].content.Archive?
        && e.name in d[ProvenanceDir].content.copies && d[ProvenanceDir].content.copies[e.name] == e.obj.content)
  }

  /** Over every history: no authority tree, no quarantined file and nothing foreign is ever lost. */
  lemma NothingIsLost(plan: Plan, initial: Disk, budget: nat, marked: bool, history: seq<Command>)
    requires WellFormed(plan) && Initial(plan, initial)
    ensures var d := Reached(plan, initial, budget, marked, history).disk;
      && (forall a :: TreeAt(plan, a, LegacySide, initial, d) != TreeAt(plan, a, GenerationSide, initial, d))
      && (forall i :: 0 <= i < |plan.quarantine| ==> BytesKept(plan, plan.quarantine[i], d))
      && Untouched(plan, initial, d)
  {
    HistoryKeeps(plan, initial, budget, marked, history);
    var s := Reached(plan, initial, budget, marked, history);
    var v :| Consistent(plan, initial, v, s);
    forall a ensures TreeAt(plan, a, LegacySide, initial, s.disk) != TreeAt(plan, a, GenerationSide, initial, s.disk) {
      DepictedTree(plan, initial, v, s.disk, a);
      assert Tree(a, v.Of(a).side) in s.disk;
    }
    assert At(s.disk, ProvenanceDir) == Expected(plan, initial, v, ProvenanceDir);
    forall i | 0 <= i < |plan.quarantine| ensures BytesKept(plan, plan.quarantine[i], s.disk) {
      QuarantineReads(plan, initial, v, s.disk, i);
    }
    DepictedUntouched(plan, initial, v, s.disk);
  }

  // --------------------------------------------------------------- liveness

  predicate OnlyResumes(history: seq<Command>) {
    forall i :: 0 <= i < |history| ==> history[i].action == Resume
  }

  predicate OnlyRollbacks(history: seq<Command>) {
    forall i :: 0 <= i < |history| ==> history[i].action == Rollback
  }

  /** Uncommitted, with nothing withdrawn: the state that resumes alone keep. */
  ghost predicate Undiminished(plan: Plan, initial: Disk, s: State) {
    && Inv(plan, initial, s) && Traced(plan, s)
    && s.journal.Some? && (s.journal.value.committed || NothingWithdrawn(plan, s.disk))
  }

  lemma {:induction false} ResumesKeep(plan: Plan, initial: Disk, s: State, history: seq<Command>)
    requires WellFormed(plan) && Initial(plan, initial) && OnlyResumes(history) && Undiminished(plan, initial, s)
    ensures Undiminished(plan, initial, Replay(plan, s, history))
    decreases |history|
  {
    if history != [] {
      var n := |history| - 1;
      assert history[n].action == Resume;
      ResumesKeep(plan, initial, s, history[..n]);
      var t := Replay(plan, s, history[..n]);
      if !t.journal.value.committed { ResumeConverges(plan, initial, t, history[n].budget); }
    }
  }

  lemma {:induction false} RollbacksKeep(plan: Plan, initial: Disk, s: State, history: seq<Command>)
    requires WellFormed(plan) && OnlyRollbacks(history)
    requires Inv(plan, initial, s) && Traced(plan, s) && s.journal.Some?
    ensures var t := Replay(plan, s, history); Inv(plan, initial, t) && Traced(plan, t) && t.journal.Some?
    decreases |history|
  {
    if history != [] {
      var n := |history| - 1;
      assert history[n].action == Rollback;
      RollbacksKeep(plan, initial, s, history[..n]);
      var t := Replay(plan, s, history[..n]);
      if !t.journal.value.committed { RollbackConverges(plan, initial, t, history[n].budget); }
    }
  }

  /**
   A migration killed anywhere, any number of killed resumes: one uninterrupted resume ends on the
   disk of an undisturbed migration.
  */
  lemma ResumesComplete(plan: Plan, initial: Disk, budget: nat, marked: bool, history: seq<Command>, last: nat)
    requires WellFormed(plan) && Initial(plan, initial) && OnlyResumes(history)
    requires budget > 0 && last >= ResumeCost(plan)
    requires !Reached(plan, initial, budget, marked, history).journal.None?
             && !Reached(plan, initial, budget, marked, history).journal.value.committed
    ensures var e := RunRecover(plan, Resume, Reached(plan, initial, budget, marked, history), last);
      && e.outcome == Finished && !e.state.marker
      && e.state.disk == RunMigrate(plan, initial, ForwardTailStart(plan) + 11).state.disk
  {
    MigrationKeeps(plan, initial, budget, marked);
    ResumesKeep(plan, initial, AfterMigration(plan, initial, budget, marked), history);
    ResumeConverges(plan, initial, Reached(plan, initial, budget, marked, history), last);
  }

  /**
   A migration killed anywhere, any number of killed resumes, any number of killed rollbacks: one
   uninterrupted rollback undoes everything and leaves reservations that a fresh migration adopts.
  */
  lemma RollbacksUndo(plan: Plan, initial: Disk, budget: nat, marked: bool,
                      resumes: seq<Command>, rollbacks: seq<Command>, last: nat)
    requires WellFormed(plan) && Initial(plan, initial) && OnlyResumes(resumes) && OnlyRollbacks(rollbacks)
    requires budget > 0 && last >= RollbackCost(plan)
    requires var s := Replay(plan, Reached(plan, initial, budget, marked, resumes), rollbacks);
      s.journal.Some? ==> !s.journal.value.committed
    ensures var s := Replay(plan, Reached(plan, initial, budget, marked, resumes), rollbacks);
            var e := RunRecover(plan, Rollback, s, last);
      && e.outcome == Finished && !e.state.marker && Undone(plan, initial, e.state.disk)
  {
    MigrationKeeps(plan, initial, budget, marked);
    ResumesKeep(plan, initial, AfterMigration(plan, initial, budget, marked), resumes);
    var s := Reached(plan, initial, budget, marked, resumes);
    RollbacksKeep(plan, initial, s, rollbacks);
    RollbackConverges(plan, initial, Replay(plan, s, rollbacks), last);
  }

  /**
   A resume that writes anything after a rollback has removed the provenance strands the
   transaction: from then on every command, rollback included, is refused.
  */
  lemma ResumeAfterRemovalStrands(plan: Plan, initial: Disk, s: State, budget: nat, history: seq<Command>)
    requires WellFormed(plan) && Initial(plan, initial)
    requires Inv(plan, initial, s) && s.journal.Some? && !s.journal.value.committed && Stripped(s.disk)
    requires RunRecover(plan, Resume, s, budget).state != s
    ensures var r := RunRecover(plan, Resume, s, budget).state;
      && Replay(plan, r, history) == r
      && !GateAccepts(r)
  {
    hide Expected, RunFrom, Items, IsResume, WellFormed;
    var e := RunRecover(plan, Resume, s, budget);
    ResumeItems(plan, s.disk);
    ResumeSigns(plan, Items(plan, Recover(Resume), s.disk), 0, s, s, budget);
    ResumeConverges(plan, initial, s, budget);
    StrandedStays(plan, e.state, history);
    StrippedNeverCompletes(plan, initial, e.state);
  }

  lemma StrippedNeverCompletes(plan: Plan, initial: Disk, s: State)
    requires Inv(plan, initial, s) && s.journal.Some? && s.journal.value.action == Some(Resume) && Stripped(s.disk)
    ensures !GateAccepts(s)
  {
    var v :| Consistent(plan, initial, v, s);
    ProvenanceReads(plan, initial, v, s.disk);
  }

  lemma {:induction false} StrandedStays(plan: Plan, s: State, history: seq<Command>)
    requires s.journal.Some? && s.journal.value.action == Some(Resume) && Stripped(s.disk)
    ensures Replay(plan, s, history) == s
    decreases |history|
  {
    if history != [] {
      StrandedStays(plan, s, history[..|history| - 1]);
      assert !ProvenanceAccounted(plan, s);
    }
  }

  // --------------------------------------------------------------- the gate

  /** `_terminal_journal_identity`: the records that later commands accept as finished history. */
  predicate TerminalJournal(j: Journal) {
    j.committed
    && (|| (j.phase == Complete
            && (j.action == None || j.action == Some(Resume))
            && (j.step == NoStep || j.step == Done(Resume, ProvenancePoint)))
        || (j.phase == RolledBack && j.action == Some(Rollback) && j.step == Done(Rollback, ProvenancePoint)))
  }

  /** `_require_no_unresolved_state`, as far as this transaction's two control files go. */
  predicate GateAccepts(s: State) {
    !s.marker && (s.journal.Some? ==> TerminalJournal(s.journal.value))
  }

  /** A finished rollback is accepted unless it found the provenance gone with only `-pending` recorded. */
  lemma RollbackPassesGate(plan: Plan, initial: Disk, s: State, budget: nat)
    requires WellFormed(plan) && Inv(plan, initial, s) && s.journal.Some? && !s.journal.value.committed
    requires RunRecover(plan, Rollback, s, budget).outcome == Finished
    ensures GateAccepts(RunRecover(plan, Rollback, s, budget).state)
        <==> ProvenanceStage in s.disk || ProvenanceDir in s.disk || s.journal.value.step == Done(Rollback, ProvenancePoint)
  {
    RollbackConverges(plan, initial, s, budget);
  }

  /** A finished resume is accepted unless it found the provenance published under some other step. */
  lemma ResumePassesGate(plan: Plan, initial: Disk, s: State, budget: nat)
    requires WellFormed(plan) && Initial(plan, initial)
    requires Inv(plan, initial, s) && s.journal.Some? && !s.journal.value.committed
    requires RunRecover(plan, Resume, s, budget).outcome == Finished
    ensures GateAccepts(RunRecover(plan, Resume, s, budget).state)
        <==> ProvenanceStage in s.disk || s.journal.value.step in {NoStep, Done(Resume, ProvenancePoint)}
  {
    hide RunRecover, RunMigrate, NothingWithdrawn, Inv, Initial, WellFormed;
    ResumeConverges(plan, initial, s, budget);
  }

  /** A finished forward run is always accepted. */
  lemma MigrationPassesGate(plan: Plan, initial: Disk, budget: nat, marked: bool)
    requires WellFormed(plan) && Initial(plan, initial)
    requires RunMigrate(plan, initial, budget).outcome == Finished
    ensures GateAccepts(AfterMigration(plan, initial, budget, marked))
  {
    ForwardFrom(plan, initial, budget);
  }

  /**
   Once committed, the gate's verdict never changes again: every recovery is refused and touches nothing. In
   particular a marker left by a kill between the committing write and its removal stays for ever.
  */
  lemma {:induction false} GateVerdictIsFinal(plan: Plan, s: State, history: seq<Command>)
    requires s.journal.Some? && s.journal.value.committed
    ensures Replay(plan, s, history) == s
    decreases |history|
  {
    if history != [] {
      var n := |history| - 1;
      GateVerdictIsFinal(plan, s, history[..n]);
    }
  }
}
