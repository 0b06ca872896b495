/**
 The migration and recovery commands: they change the disk, the journal and the marker in place, one write
 after the other, and may be killed before any single change. Each is proved to leave exactly the
 state that its program prescribes, so every theorem about programs is a theorem about them.
*/
module LegacyMachine {
  import opened Options
  import opened LegacyModel
  import opened LegacyProgram
  import opened LegacyRollback
  import opened LegacyResume
  import opened LegacyForward

  /** Whether a command goes on, or stops with the given outcome. */
  datatype Status = Proceed | Stop(outcome: Outcome) {
    predicate IsFailure() {
      Stop?
    }

    function PropagateFailure(): Status
      requires Stop?
    {
      this
    }
  }

  class Machine {
    const plan: Plan
    var disk: Disk
    var journal: Option<Journal>
    var marker: bool
    var budget: nat

    constructor (plan: Plan, disk: Disk)
      ensures this.plan == plan && State() == LegacyModel.State(disk, None, false)
    {
      this.plan, this.disk, this.journal, this.marker, this.budget := plan, disk, None, false, 0;
    }

    function State(): State
      reads this
    {
      LegacyModel.State(disk, journal, marker)
    }

    /** From item `from` in state `s`, the program goes on at item `to` in the current state, or has stopped in it. */
    ghost predicate Continues(items: seq<Item>, mode: Option<Action>, from: nat, s: State, b: nat, to: nat, r: Status)
      reads this
      requires from <= |items| && to <= |items|
    {
      RunFrom(items, from, mode, s, b)
      == match r
         case Proceed => RunFrom(items, to, mode, State(), budget)
         case Stop(outcome) => Ending(State(), outcome)
    }

    // ------------------------------------------------- single changes

    method WriteJournal(j: Journal) returns (r: Status)
      modifies this`journal, this`budget
      ensures old(budget) == 0 ==> r == Stop(Crashed) && State() == old(State()) && budget == 0
      ensures old(budget) > 0 ==> r == Proceed && State() == old(State()).(journal := Some(j)) && budget == old(budget) - 1
    {
      if budget == 0 { return Stop(Crashed); }
      journal, budget := Some(j), budget - 1;
      return Proceed;
    }

    method Perform(op: Op) returns (r: Status)
      modifies this`disk, this`budget
      ensures old(budget) == 0 ==> r == Stop(Crashed) && State() == old(State()) && budget == 0
      ensures old(budget) > 0 && Exec(op, old(disk)).None? ==>
                r == Stop(Refused) && State() == old(State()) && budget == old(budget)
      ensures old(budget) > 0 && Exec(op, old(disk)).Some? ==>
                r == Proceed && State() == old(State()).(disk := Exec(op, old(disk)).value) && budget == old(budget) - 1
    {
      if budget == 0 { return Stop(Crashed); }
      var next := Exec(op, disk);
      if next.None? { return Stop(Refused); }
      disk, budget := next.value, budget - 1;
      return Proceed;
    }

    method WritePhase(mode: Option<Action>, phase: Phase, committed: bool, ghost items: seq<Item>, ghost k: nat)
      returns (r: Status)
      requires k < |items| && items[k] == if committed then Commit(phase) else Mark(phase)
      modifies this`journal, this`budget
      ensures Continues(items, mode, k, old(State()), old(budget), k + 1, r)
    {
      r := WriteJournal(Written(journal, mode, phase, committed));
    }

    method RemoveMarker(ghost items: seq<Item>, ghost mode: Option<Action>, ghost k: nat) returns (r: Status)
      requires k < |items| && items[k] == DropMarker
      modifies this`marker, this`budget
      ensures Continues(items, mode, k, old(State()), old(budget), k + 1, r)
    {
      if budget == 0 { return Stop(Crashed); }
      marker, budget := false, budget - 1;
      return Proceed;
    }

    method RemoveTransaction(ghost items: seq<Item>, ghost mode: Option<Action>, ghost k: nat) returns (r: Status)
      requires k < |items| && items[k] == DropTransaction(plan.transaction)
      modifies this`disk, this`budget
      ensures Continues(items, mode, k, old(State()), old(budget), k + 1, r)
    {
      if budget == 0 { return Stop(Crashed); }
      if !Matches(At(disk, TransactionDir), Some(plan.transaction)) { return Stop(Refused); }
      disk, budget := WithoutTransaction(disk), budget - 1;
      return Proceed;
    }

    /** The machine is where the progress of one item says, and goes on or stops accordingly. */
    ghost predicate Leaves(p: Progress, r: Status)
      reads this
    {
      && State() == p.state
      && r == (if p.outcome == Running then Proceed else Stop(p.outcome))
      && (r == Proceed ==> budget == p.budget)
    }

    /** A journaled change: `-pending`, the change, `-done`. */
    method Journaled(action: Action, point: Point, op: Op) returns (r: Status)
      modifies this`disk, this`journal, this`budget
      ensures marker == old(marker)
      ensures Leaves(RunItem(Guarded(point, Always, op, Always), Some(action), old(State()), old(budget)), r)
    {
      r := Proceed;
      :- WriteJournal(Journal(Recovering, Some(action), Pending(action, point), false));
      :- Perform(op);
      :- WriteJournal(Journal(Recovering, Some(action), Done(action, point), false));
    }

    /** One guarded step of a recovery, in place. */
    method Step(action: Action, point: Point, guard: Guard, op: Op, otherwise: Guard, ghost items: seq<Item>, ghost k: nat)
      returns (r: Status)
      requires k < |items| && items[k] == Guarded(point, guard, op, otherwise)
      modifies this`disk, this`journal, this`budget
      ensures Continues(items, Some(action), k, old(State()), old(budget), k + 1, r)
    {
      if Test(guard, disk) {
        r := Journaled(action, point, op);
      } else if Test(otherwise, disk) {
        r := Proceed;
      } else {
        r := Stop(Refused);
      }
    }

    method Require(a: Authority, ghost items: seq<Item>, ghost mode: Option<Action>, ghost k: nat) returns (r: Status)
      requires k < |items| && items[k] == Locate(a, plan.Of(a).tree)
      ensures Continues(items, mode, k, State(), budget, k + 1, r)
    {
      r := if Located(disk, a, plan.Of(a).tree) then Proceed else Stop(Refused);
    }

    // ------------------------------------------------------- rollback

    method RollBackPublications(ghost items: seq<Item>, ghost origin: Disk) returns (r: Status)
      requires IsRollback(items, plan, origin)
      modifies this`disk, this`journal, this`budget
      ensures Continues(items, Some(Rollback), 0, old(State()), old(budget), Base(plan), r)
    {
      hide RunFrom, RunItem;
      ghost var s, b, n := State(), budget, |plan.issuers|;
      :- Step(Rollback, ActivePoint, Is(ActiveIssuer, Some(plan.active)), Unlink(ActiveIssuer, plan.active), Always, items, 0);
      for i := 0 to |plan.issuers|
        invariant Continues(items, Some(Rollback), 0, s, b, 1 + i, Proceed)
      {
        var e := plan.issuers[i];
        assert items[1 + i] == RollbackIssuer(e);
        :- Step(Rollback, IssuerPoint(e.name), Is(Issuer(e.name), Some(e.obj)), Unlink(Issuer(e.name), e.obj), Always,
                items, 1 + i);
      }
      for i := 0 to |plan.quarantine|
        invariant Continues(items, Some(Rollback), 0, s, b, 1 + n + i, Proceed)
      {
        var e := plan.quarantine[i];
        assert items[1 + n + i] == RollbackQuarantine(e);
        :- Step(Rollback, QuarantinePoint(e.name), Is(Staged(Quarantined(e.name)), Some(e.obj)),
                Publish(Staged(Quarantined(e.name)), Scaffold(e.name), e.obj, [None]), Always, items, 1 + n + i);
      }
      return Proceed;
    }

    method RestoreConfig(a: Authority, side: Side, ghost items: seq<Item>, ghost k: nat) returns (r: Status)
      requires k < |items| && items[k] == RollbackConfig(plan, a, side)
      modifies this`disk, this`journal, this`budget
      ensures Continues(items, Some(Rollback), k, old(State()), old(budget), k + 1, r)
    {
      var p := plan.Of(a);
      r := Step(Rollback, ConfigPoint(a), Is(Config(a, side), Some(p.configPublished)),
                Publish(Staged(ConfigRollback(a)), Config(a, side), p.configRollback, [Some(p.configPublished)]), Always,
                items, k);
    }

    method ReturnTree(a: Authority, ghost items: seq<Item>, ghost k: nat) returns (r: Status)
      requires k + 1 < |items| && items[k] == Locate(a, plan.Of(a).tree) && items[k + 1] == RollbackRename(plan, a)
      modifies this`disk, this`journal, this`budget
      ensures Continues(items, Some(Rollback), k, old(State()), old(budget), k + 2, r)
    {
      hide RunFrom, RunItem;
      :- Require(a, items, Some(Rollback), k);
      r := Step(Rollback, RenamePoint(a), Exists(Tree(a, GenerationSide)),
                MoveTree(a, GenerationSide, LegacySide, plan.Of(a).tree), Always, items, k + 1);
    }

    method Abandon(a: Authority, ghost items: seq<Item>, ghost k: nat) returns (r: Status)
      requires k < |items| && items[k] == RollbackReservation(plan, a)
      modifies this`disk, this`journal, this`budget
      ensures Continues(items, Some(Rollback), k, old(State()), old(budget), k + 1, r)
    {
      var p := plan.Of(a);
      r := Step(Rollback, ReservationPoint(a), IsNot(Reservation(a), Some(p.abandoned)),
                Publish(Staged(AbandonedPublish(a)), Reservation(a), p.abandoned,
                        [p.reservationOriginal, Some(p.reserved), Some(p.consumed)]), Always, items, k);
    }

    /** Configurations, trees (the intermediate first), reservations, backup session, provenance, commit. */
    method RollBackAuthorities(rootSide: Side, intermediateSide: Side, provenance: Path, ghost items: seq<Item>, ghost origin: Disk)
      returns (r: Status)
      requires IsRollback(items, plan, origin)
      requires rootSide == SideOf(origin, Root) && intermediateSide == SideOf(origin, Intermediate)
      requires provenance == if ProvenanceStage in origin then ProvenanceStage else ProvenanceDir
      modifies this`disk, this`journal, this`budget, this`marker
      ensures Continues(items, Some(Rollback), Base(plan), old(State()), old(budget), Base(plan) + 12, r)
    {
      hide RunFrom, RunItem;
      ghost var k := Base(plan);
      :- RestoreConfig(Root, rootSide, items, k);
      :- RestoreConfig(Intermediate, intermediateSide, items, k + 1);
      :- ReturnTree(Intermediate, items, k + 2);
      :- ReturnTree(Root, items, k + 4);
      :- Abandon(Root, items, k + 6);
      :- Abandon(Intermediate, items, k + 7);
      :- Step(Rollback, SessionPoint, Is(BackupSession, Some(plan.session)), Unlink(BackupSession, plan.session), Always,
              items, k + 8);
      :- Step(Rollback, ProvenancePoint, Exists(provenance), RemoveTree(provenance, plan.provenance), Always, items, k + 9);
      :- WritePhase(Some(Rollback), RolledBack, true, items, k + 10);
      r := RemoveMarker(items, Some(Rollback), k + 11);
    }

    // --------------------------------------------------------- resume

    method Reserve(a: Authority, ghost items: seq<Item>, ghost k: nat) returns (r: Status)
      requires k < |items| && items[k] == ResumeReserve(plan, a)
      modifies this`disk, this`journal, this`budget
      ensures Continues(items, Some(Resume), k, old(State()), old(budget), k + 1, r)
    {
      var p := plan.Of(a);
      r := Step(Resume, ReservationPoint(a), Is(Reservation(a), p.reservationOriginal),
                Publish(Staged(ReservedPublish(a)), Reservation(a), p.reserved, [p.reservationOriginal]), Always, items, k);
    }

    method AdvanceTree(a: Authority, phase: Phase, ghost items: seq<Item>, ghost k: nat) returns (r: Status)
      requires k + 2 < |items| && items[k] == Locate(a, plan.Of(a).tree)
      requires items[k + 1] == ResumeRename(plan, a) && items[k + 2] == Mark(phase)
      modifies this`disk, this`journal, this`budget
      ensures Continues(items, Some(Resume), k, old(State()), old(budget), k + 3, r)
    {
      hide RunFrom, RunItem;
      :- Require(a, items, Some(Resume), k);
      :- Step(Resume, RenamePoint(a), Exists(Tree(a, LegacySide)),
              MoveTree(a, LegacySide, GenerationSide, plan.Of(a).tree), Always, items, k + 1);
      r := WritePhase(Some(Resume), phase, false, items, k + 2);
    }

    method PublishConfig(a: Authority, ghost items: seq<Item>, ghost k: nat) returns (r: Status)
      requires k < |items| && items[k] == ResumeConfig(plan, a)
      modifies this`disk, this`journal, this`budget
      ensures Continues(items, Some(Resume), k, old(State()), old(budget), k + 1, r)
    {
      var p := plan.Of(a);
      r := Step(Resume, ConfigPoint(a), Is(Config(a, GenerationSide), Some(p.configOriginal)),
                Publish(Staged(ConfigNew(a)), Config(a, GenerationSide), p.configPublished, [Some(p.configOriginal)]),
                Is(Config(a, GenerationSide), Some(p.configPublished)), items, k);
    }

    method Consume(a: Authority, ghost items: seq<Item>, ghost k: nat) returns (r: Status)
      requires k < |items| && items[k] == ResumeConsume(plan, a)
      modifies this`disk, this`journal, this`budget
      ensures Continues(items, Some(Resume), k, old(State()), old(budget), k + 1, r)
    {
      var p := plan.Of(a);
      r := Step(Resume, ConsumePoint(a), Is(Reservation(a), Some(p.reserved)),
                Publish(Staged(ConsumedPublish(a)), Reservation(a), p.consumed, [Some(p.reserved)]),
                Is(Reservation(a), Some(p.consumed)), items, k);
    }

    method PublishSession(ghost items: seq<Item>) returns (r: Status)
      requires |items| > 0 && items[0] == ResumeSession(plan)
      modifies this`disk, this`journal, this`budget
      ensures Continues(items, Some(Resume), 0, old(State()), old(budget), 1, r)
    {
      hide RunFrom, RunItem, Exec, Test;
      r := Step(Resume, SessionPoint, Is(BackupSession, None),
                Publish(Staged(SessionPublish), BackupSession, plan.session, [None]), Always, items, 0);
    }

    method ReserveBoth(ghost items: seq<Item>) returns (r: Status)
      requires IsResume(items, plan)
      modifies this`disk, this`journal, this`budget
      ensures Continues(items, Some(Resume), 0, old(State()), old(budget), 4, r)
    {
      hide RunFrom, RunItem, Exec, Test, ResumeSession, ResumeReserve, ResumeIssuer, ResumeQuarantine;
      :- PublishSession(items);
      :- Reserve(Root, items, 1);
      :- Reserve(Intermediate, items, 2);
      r := WritePhase(Some(Resume), ReservedPhase, false, items, 3);
    }

    method ResumeAuthorities(ghost items: seq<Item>) returns (r: Status)
      requires IsResume(items, plan)
      modifies this`disk, this`journal, this`budget
      ensures Continues(items, Some(Resume), 0, old(State()), old(budget), 13, r)
    {
      hide RunFrom, RunItem;
      :- ReserveBoth(items);
      :- AdvanceTree(Root, RootRenamed, items, 4);
      :- AdvanceTree(Intermediate, IntermediateRenamed, items, 7);
      :- PublishConfig(Root, items, 10);
      :- PublishConfig(Intermediate, items, 11);
      r := WritePhase(Some(Resume), ConfigsPublished, false, items, 12);
    }

    method PublishIssuer(e: Named, ghost items: seq<Item>, ghost k: nat) returns (r: Status)
      requires k < |items| && items[k] == ResumeIssuer(e)
      modifies this`disk, this`journal, this`budget
      ensures Continues(items, Some(Resume), k, old(State()), old(budget), k + 1, r)
    {
      hide RunFrom, RunItem, Exec, Test;
      r := Step(Resume, IssuerPoint(e.name), Is(Issuer(e.name), None),
                Publish(Staged(IssuerStage(e.name)), Issuer(e.name), e.obj, [None]), Is(Issuer(e.name), Some(e.obj)), items, k);
    }

    method MoveQuarantine(e: Named, ghost items: seq<Item>, ghost k: nat) returns (r: Status)
      requires k < |items| && items[k] == ResumeQuarantine(e)
      modifies this`disk, this`journal, this`budget
      ensures Continues(items, Some(Resume), k, old(State()), old(budget), k + 1, r)
    {
      hide RunFrom, RunItem, Exec, Test;
      r := Step(Resume, QuarantinePoint(e.name), Is(Scaffold(e.name), Some(e.obj)),
                Publish(Scaffold(e.name), Staged(Quarantined(e.name)), e.obj, [None]),
                Is(Staged(Quarantined(e.name)), Some(e.obj)), items, k);
    }

    method ResumePublications(ghost items: seq<Item>) returns (r: Status)
      requires IsResume(items, plan)
      modifies this`disk, this`journal, this`budget
      ensures Continues(items, Some(Resume), 13, old(State()), old(budget), Tail(plan), r)
    {
      hide RunFrom, RunItem, Exec, Test, ResumeIssuer, ResumeQuarantine;
      ghost var s, b, n := State(), budget, |plan.issuers|;
      for i := 0 to |plan.issuers|
        invariant Continues(items, Some(Resume), 13, s, b, 13 + i, Proceed)
      {
        assert items[13 + i] == ResumeIssuer(plan.issuers[i]);
        :- PublishIssuer(plan.issuers[i], items, 13 + i);
      }
      :- WritePhase(Some(Resume), IssuersPublished, false, items, 13 + n);
      for i := 0 to |plan.quarantine|
        invariant Continues(items, Some(Resume), 13, s, b, 14 + n + i, Proceed)
      {
        assert items[14 + n + i] == ResumeQuarantine(plan.quarantine[i]);
        :- MoveQuarantine(plan.quarantine[i], items, 14 + n + i);
      }
      return Proceed;
    }

    method ResumeCompletion(ghost items: seq<Item>) returns (r: Status)
      requires IsResume(items, plan)
      modifies this`disk, this`journal, this`budget, this`marker
      ensures Continues(items, Some(Resume), Tail(plan), old(State()), old(budget), Tail(plan) + 9, r)
    {
      hide RunFrom, RunItem;
      ghost var k := Tail(plan);
      :- WritePhase(Some(Resume), QuarantinedPhase, false, items, k);
      :- Consume(Root, items, k + 1);
      :- Consume(Intermediate, items, k + 2);
      :- WritePhase(Some(Resume), ActivePending, false, items, k + 3);
      :- Step(Resume, ActivePoint, Is(ActiveIssuer, None), Publish(Staged(ActivePublish), ActiveIssuer, plan.active, [None]),
              Is(ActiveIssuer, Some(plan.active)), items, k + 4);
      :- Step(Resume, ProvenancePoint, Exists(ProvenanceStage), MoveProvenance(plan.provenance), Always, items, k + 5);
      :- WritePhase(Some(Resume), Complete, true, items, k + 6);
      :- RemoveMarker(items, Some(Resume), k + 7);
      r := RemoveTransaction(items, Some(Resume), k + 8);
    }

    // --------------------------------------------------------- forward

    method Apply(op: Op, ghost items: seq<Item>, ghost k: nat) returns (r: Status)
      requires k < |items| && items[k] == Do(op)
      modifies this`disk, this`budget
      ensures Continues(items, None, k, old(State()), old(budget), k + 1, r)
    {
      r := Perform(op);
    }

    method PublishReservations(ghost items: seq<Item>) returns (r: Status)
      requires IsForward(items, plan)
      modifies this`disk, this`journal, this`budget
      ensures Continues(items, None, 0, old(State()), old(budget), 5, r)
    {
      hide RunFrom, RunItem;
      :- WritePhase(None, PreMutation, false, items, 0);
      :- Apply(Publish(Staged(SessionPublish), BackupSession, plan.session, [None]), items, 1);
      :- Apply(ResumeReserve(plan, Root).op, items, 2);
      :- Apply(ResumeReserve(plan, Intermediate).op, items, 3);
      r := WritePhase(None, ReservedPhase, false, items, 4);
    }

    method MoveAuthorities(ghost items: seq<Item>) returns (r: Status)
      requires IsForward(items, plan)
      modifies this`disk, this`journal, this`budget
      ensures Continues(items, None, 0, old(State()), old(budget), 12, r)
    {
      hide RunFrom, RunItem;
      :- PublishReservations(items);
      :- Apply(MoveTree(Root, LegacySide, GenerationSide, plan.root.tree), items, 5);
      :- WritePhase(None, RootRenamed, false, items, 6);
      :- Apply(MoveTree(Intermediate, LegacySide, GenerationSide, plan.intermediate.tree), items, 7);
      :- WritePhase(None, IntermediateRenamed, false, items, 8);
      :- Apply(ResumeConfig(plan, Root).op, items, 9);
      :- Apply(ResumeConfig(plan, Intermediate).op, items, 10);
      r := WritePhase(None, ConfigsPublished, false, items, 11);
    }

    method MovePublications(ghost items: seq<Item>) returns (r: Status)
      requires IsForward(items, plan)
      modifies this`disk, this`journal, this`budget
      ensures Continues(items, None, 12, old(State()), old(budget), ForwardTailStart(plan), r)
    {
      hide RunFrom, RunItem;
      ghost var s, b, n := State(), budget, |plan.issuers|;
      for i := 0 to |plan.issuers|
        invariant Continues(items, None, 12, s, b, 12 + i, Proceed)
      {
        var e := plan.issuers[i];
        assert items[12 + i] == Do(ResumeIssuer(e).op);
        :- Apply(Publish(Staged(IssuerStage(e.name)), Issuer(e.name), e.obj, [None]), items, 12 + i);
      }
      :- WritePhase(None, IssuersPublished, false, items, 12 + n);
      for i := 0 to |plan.quarantine|
        invariant Continues(items, None, 12, s, b, 13 + n + i, Proceed)
      {
        var e := plan.quarantine[i];
        assert items[13 + n + i] == Do(ResumeQuarantine(e).op);
        :- Apply(Publish(Scaffold(e.name), Staged(Quarantined(e.name)), e.obj, [None]), items, 13 + n + i);
      }
      return Proceed;
    }

    method Activate(ghost items: seq<Item>) returns (r: Status)
      requires IsForward(items, plan)
      modifies this`disk, this`journal, this`budget, this`marker
      ensures Continues(items, None, ForwardTailStart(plan), old(State()), old(budget), ForwardTailStart(plan) + 11, r)
    {
      hide RunFrom, RunItem;
      ghost var k := ForwardTailStart(plan);
      :- WritePhase(None, QuarantinedPhase, false, items, k);
      :- Apply(ResumeConsume(plan, Root).op, items, k + 1);
      :- Apply(ResumeConsume(plan, Intermediate).op, items, k + 2);
      :- WritePhase(None, ActivePending, false, items, k + 3);
      :- Apply(Publish(Staged(ActivePublish), ActiveIssuer, plan.active, [None]), items, k + 4);
      :- WritePhase(None, ActivePublished, false, items, k + 5);
      :- Apply(MoveProvenance(plan.provenance), items, k + 6);
      :- WritePhase(None, ProvenancePublished, false, items, k + 7);
      :- WritePhase(None, Complete, true, items, k + 8);
      :- RemoveMarker(items, None, k + 9);
      r := RemoveTransaction(items, None, k + 10);
    }

    // ------------------------------------------------------- commands

    /** `migrate`, killed after `limit` changes. */
    method Migrate(limit: nat) returns (outcome: Outcome)
      requires journal == None && !marker
      modifies this
      ensures Ending(State(), outcome) == RunMigrate(plan, old(disk), limit)
    {
      budget := limit;
      ghost var items := Items(plan, LegacyProgram.Migrate, disk);
      ForwardItems(plan, disk);
      var r := MoveAuthorities(items);
      if r == Proceed { r := MovePublications(items); }
      if r == Proceed { r := Activate(items); }
      outcome := if r == Proceed then Finished else r.outcome;
    }

    /** `recover --action ...`, killed after `limit` changes: exactly what the program prescribes. */
    method Recover(action: Action, limit: nat) returns (outcome: Outcome)
      modifies this
      ensures Ending(State(), outcome) == RunRecover(plan, action, old(State()), limit)
    {
      budget := limit;
      var ready := journal.Some? && !journal.value.committed && Preflight(plan, State(), action);
      if !ready { return Refused; }
      ghost var origin, items := disk, Items(plan, LegacyProgram.Recover(action), disk);
      var r: Status;
      match action {
        case Rollback =>
          RollbackItems(plan, origin);
          var rootSide, intermediateSide := SideOf(disk, Root), SideOf(disk, Intermediate);
          var provenance := if ProvenanceStage in disk then ProvenanceStage else ProvenanceDir;
          r := RollBackPublications(items, origin);
          if r == Proceed { r := RollBackAuthorities(rootSide, intermediateSide, provenance, items, origin); }
        case Resume =>
          ResumeItems(plan, origin);
          r := ResumeAuthorities(items);
          if r == Proceed { r := ResumePublications(items); }
          if r == Proceed { r := ResumeCompletion(items); }
      }
      outcome := if r == Proceed then Finished else r.outcome;
    }
  }
}
