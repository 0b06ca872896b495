/**
 Where a run can be killed: a run that finishes passes before each of its items, and some budget stops it there.
 From every state in which a recovery finishes, a kill opens each of the windows that the first recovery leaves.
*/
module LegacyCuts {
  import opened Options
  import opened LegacyModel
  import opened LegacyProgram
  import opened LegacyInvariant
  import opened LegacySteps
  import opened LegacyRollback
  import opened LegacyResume
  import opened LegacyForward
  import opened LegacyConvergence
  import opened LegacyHistory

  /** An item that goes through spends a fixed number of writes. */
  lemma ItemSpends(item: Item, mode: Option<Action>, s: State, budget: nat, extra: nat)
    requires RunItem(item, mode, s, budget).outcome == Running
    ensures var r := RunItem(item, mode, s, budget);
      r.budget <= budget && RunItem(item, mode, s, budget - r.budget + extra) == Progress(r.state, Running, extra)
  {
    hide Exec, Test, Located, WithoutTransaction;
  }

  /** An item that does not touch the provenance. */
  predicate Spares(item: Item) {
    match item
    case DropTransaction(_) => false
    case Guarded(_, _, op, _) => SparesProvenance(op)
    case Do(op) => SparesProvenance(op)
    case _ => true
  }

  predicate SparesProvenance(op: Op) {
    match op
    case Publish(source, destination, _, _) => {source, destination} !! {ProvenanceStage, ProvenanceDir}
    case MoveTree(_, _, _, _) => true
    case MoveProvenance(_) => false
    case Unlink(path, _) => path !in {ProvenanceStage, ProvenanceDir}
    case RemoveTree(path, _) => path !in {ProvenanceStage, ProvenanceDir}
  }

  predicate SameProvenance(s: State, t: State) {
    At(t.disk, ProvenanceStage) == At(s.disk, ProvenanceStage) && At(t.disk, ProvenanceDir) == At(s.disk, ProvenanceDir)
  }

  lemma ExecSpares(op: Op, d: Disk)
    requires SparesProvenance(op) && Exec(op, d).Some?
    ensures var r := Exec(op, d).value;
      At(r, ProvenanceStage) == At(d, ProvenanceStage) && At(r, ProvenanceDir) == At(d, ProvenanceDir)
  {
  }

  lemma ItemSpares(item: Item, mode: Option<Action>, s: State, budget: nat)
    requires Spares(item)
    ensures SameProvenance(s, RunItem(item, mode, s, budget).state)
  {
    hide Exec, Test, Located, SparesProvenance;
    if item.Guarded? && Exec(item.op, s.disk).Some? { ExecSpares(item.op, s.disk); }
    if item.Do? && Exec(item.op, s.disk).Some? { ExecSpares(item.op, s.disk); }
  }

  lemma MarkerStays(item: Item, mode: Option<Action>, s: State, budget: nat)
    requires !item.DropMarker?
    ensures RunItem(item, mode, s, budget).state.marker == s.marker
  {
    hide Exec, Test, Located, WithoutTransaction;
  }

  /** The state before item `j` of a run that finishes, and the budget that stops the run there. */
  lemma {:induction false} CutBefore(items: seq<Item>, k: nat, j: nat, mode: Option<Action>, s: State, budget: nat, extra: nat)
    returns (cut: nat, t: State, left: nat)
    requires k <= j <= |items| && RunFrom(items, k, mode, s, budget).outcome == Finished
    ensures RunFrom(items, k, mode, s, budget) == RunFrom(items, j, mode, t, left)
    ensures RunFrom(items, k, mode, s, cut + extra) == RunFrom(items, j, mode, t, extra)
    ensures (forall i :: k <= i < j ==> !items[i].DropMarker?) ==> t.marker == s.marker
    ensures (forall i :: k <= i < j ==> Spares(items[i])) ==> SameProvenance(s, t)
    ensures s.journal.Some? ==> t.journal.Some?
    decreases j - k
  {
    hide RunItem, Spares;
    cut, t, left := 0, s, budget;
    if k < j {
      var r := RunItem(items[k], mode, s, budget);
      cut, t, left := CutBefore(items, k + 1, j, mode, r.state, r.budget, extra);
      ItemSpends(items[k], mode, s, budget, cut + extra);
      cut := cut + (budget - r.budget);
      if Spares(items[k]) { ItemSpares(items[k], mode, s, budget); }
      if !items[k].DropMarker? { MarkerStays(items[k], mode, s, budget); }
    }
  }

  // ------------------------------------------------------------ a lasting marker

  function Cost(plan: Plan, action: Action): nat {
    match action
    case Resume => ResumeCost(plan)
    case Rollback => RollbackCost(plan)
  }

  /** The place of the item that removes the marker. */
  function Unmarking(plan: Plan, action: Action): nat {
    match action
    case Resume => Tail(plan) + 7
    case Rollback => Base(plan) + 11
  }

  lemma MarkerSpared(plan: Plan, action: Action, origin: Disk)
    ensures var items, j := Items(plan, Recover(action), origin), Unmarking(plan, action);
      && 0 < j < |items| && items[j] == DropMarker && forall i :: 0 <= i < j ==> !items[i].DropMarker?
  {
    hide Items, IsResume, IsRollback;
    match action {
      case Rollback =>
        RollbackItems(plan, origin);
        RollbackSparesMarker(plan, origin, Items(plan, Recover(action), origin));
      case Resume =>
        ResumeItems(plan, origin);
        ResumeSparesMarker(plan, Items(plan, Recover(action), origin));
    }
  }

  lemma RollbackSparesMarker(plan: Plan, origin: Disk, items: seq<Item>)
    requires IsRollback(items, plan, origin)
    ensures var j := Unmarking(plan, Rollback); 0 < j < |items| && items[j] == DropMarker && forall i :: 0 <= i < j ==> !items[i].DropMarker?
  {
    var n, m := |plan.issuers|, |plan.quarantine|;
    forall i | 0 <= i < Unmarking(plan, Rollback) ensures !items[i].DropMarker? {
      if 1 <= i < 1 + n { assert items[1 + (i - 1)] == RollbackIssuer(plan.issuers[i - 1]); }
      if 1 + n <= i < 1 + n + m { assert items[1 + n + (i - 1 - n)] == RollbackQuarantine(plan.quarantine[i - 1 - n]); }
    }
  }

  lemma ResumeSparesMarker(plan: Plan, items: seq<Item>)
    requires IsResume(items, plan)
    ensures var j := Unmarking(plan, Resume); 0 < j < |items| && items[j] == DropMarker && forall i :: 0 <= i < j ==> !items[i].DropMarker?
  {
    var n, m := |plan.issuers|, |plan.quarantine|;
    forall i | 0 <= i < Unmarking(plan, Resume) ensures !items[i].DropMarker? {
      if 13 <= i < 13 + n { assert items[13 + (i - 13)] == ResumeIssuer(plan.issuers[i - 13]); }
      if 14 + n <= i < 14 + n + m { assert items[14 + n + (i - 14 - n)] == ResumeQuarantine(plan.quarantine[i - 14 - n]); }
    }
  }

  /** Removing the marker leaves disk and journal alone, so the state before it has the journal of the end. */
  lemma BeforeUnmarking(items: seq<Item>, j: nat, mode: Option<Action>, t: State, left: nat)
    requires j < |items| && items[j] == DropMarker && RunFrom(items, j, mode, t, left).outcome == Finished
    requires forall i :: j < i < |items| ==> items[i].DropTransaction?
    ensures RunFrom(items, j, mode, t, left).state.journal == t.journal
    ensures RunFrom(items, j, mode, t, 0) == Ending(t, Crashed)
  {
    JournalStays(items, j + 1, mode, RunItem(items[j], mode, t, left).state, RunItem(items[j], mode, t, left).budget);
  }

  lemma {:induction false} JournalStays(items: seq<Item>, k: nat, mode: Option<Action>, s: State, budget: nat)
    requires k <= |items| && forall i :: k <= i < |items| ==> items[i].DropTransaction?
    ensures RunFrom(items, k, mode, s, budget).state.journal == s.journal
    decreases |items| - k
  {
    hide WithoutTransaction;
    if k < |items| {
      var r := RunItem(items[k], mode, s, budget);
      if r.outcome == Running { JournalStays(items, k + 1, mode, r.state, r.budget); }
    }
  }

  lemma AfterUnmarking(plan: Plan, action: Action, origin: Disk)
    ensures var items, j := Items(plan, Recover(action), origin), Unmarking(plan, action);
      forall i :: j < i < |items| ==> items[i].DropTransaction?
  {
    hide Items;
    match action {
      case Rollback => RollbackItems(plan, origin);
      case Resume => ResumeItems(plan, origin);
    }
  }

  /** Whatever finishes commits. */
  lemma FinishedCommits(plan: Plan, initial: Disk, action: Action, s: State, budget: nat)
    requires WellFormed(plan) && Initial(plan, initial) && Inv(plan, initial, s)
    requires RunRecover(plan, action, s, budget).outcome == Finished
    ensures var j := RunRecover(plan, action, s, budget).state.journal; j.Some? && j.value.committed
  {
    hide Inv, RunFrom, Items, Preflight;
    match action {
      case Rollback => RollbackConverges(plan, initial, s, budget);
      case Resume => ResumeConverges(plan, initial, s, budget);
    }
  }

  /**
   From every state in which a recovery finishes while a marker is there, a kill between its commit and the removal
   of the marker leaves both. No later command changes that, and none is let through.
  */
  lemma MarkerWindow(plan: Plan, initial: Disk, action: Action, s: State, budget: nat) returns (cut: nat)
    requires WellFormed(plan) && Initial(plan, initial) && Inv(plan, initial, s) && s.marker
    requires RunRecover(plan, action, s, budget).outcome == Finished
    ensures var r := RunRecover(plan, action, s, cut).state;
      && r.journal.Some? && r.journal.value.committed && r.marker
      && forall history: seq<Command> :: Replay(plan, r, history) == r && !GateAccepts(Replay(plan, r, history))
  {
    hide RunFrom, Items, Preflight, Inv, Initial, WellFormed;
    var items, j := Items(plan, Recover(action), s.disk), Unmarking(plan, action);
    MarkerSpared(plan, action, s.disk);
    AfterUnmarking(plan, action, s.disk);
    var t, left;
    cut, t, left := CutBefore(items, 0, j, Some(action), s, budget, 0);
    BeforeUnmarking(items, j, Some(action), t, left);
    FinishedCommits(plan, initial, action, s, budget);
    assert RunRecover(plan, action, s, cut).state == t;
    forall history: seq<Command> ensures Replay(plan, t, history) == t && !GateAccepts(t) { GateVerdictIsFinal(plan, t, history); }
  }

  // ------------------------------------------------------- an unrecorded publication

  lemma ProvenanceSpared(plan: Plan, origin: Disk)
    ensures var items, j := Items(plan, Recover(Resume), origin), Tail(plan) + 5;
      && j < |items| && items[j] == ResumeProvenance(plan) && forall i :: 0 <= i < j ==> Spares(items[i])
  {
    hide Items;
    var items, n, m := Items(plan, Recover(Resume), origin), |plan.issuers|, |plan.quarantine|;
    ResumeItems(plan, origin);
    forall i | 0 <= i < Tail(plan) + 5 ensures Spares(items[i]) {
      if 13 <= i < 13 + n { assert items[13 + (i - 13)] == ResumeIssuer(plan.issuers[i - 13]); }
      if 14 + n <= i < 14 + n + m { assert items[14 + n + (i - 14 - n)] == ResumeQuarantine(plan.quarantine[i - 14 - n]); }
    }
  }

  /** Two writes into the publication of the provenance: done, but recorded as pending. */
  lemma CutAfterPublication(plan: Plan, items: seq<Item>, j: nat, t: State, left: nat)
    requires j < |items| && items[j] == ResumeProvenance(plan) && ProvenanceStage in t.disk && t.journal.Some?
    requires RunFrom(items, j, Some(Resume), t, left).outcome == Finished
    ensures var r := RunFrom(items, j, Some(Resume), t, 2).state;
      && r.journal == Some(Journal(Recovering, Some(Resume), Pending(Resume, ProvenancePoint), false))
      && ProvenanceStage !in r.disk && ProvenanceDir in r.disk
  {
  }

  /**
   From every state in which a resume finishes and finds the provenance staged, a kill between its publication and
   the record of it leaves a state in which a resume still finishes, but is never let through.
  */
  lemma PublicationWindow(plan: Plan, initial: Disk, s: State, budget: nat) returns (cut: nat)
    requires WellFormed(plan) && Initial(plan, initial) && Inv(plan, initial, s) && ProvenanceStage in s.disk
    requires RunRecover(plan, Resume, s, budget).outcome == Finished
    ensures var r := RunRecover(plan, Resume, s, cut).state;
            var e := RunRecover(plan, Resume, r, ResumeCost(plan));
      && Inv(plan, initial, r) && e.outcome == Finished && e.state.disk == RunRecover(plan, Resume, s, budget).state.disk
      && forall history: seq<Command> :: !GateAccepts(Replay(plan, e.state, history))
  {
    hide RunFrom, Items, Preflight, Inv, Initial, WellFormed, NothingWithdrawn, RunMigrate;
    var items, j := Items(plan, Recover(Resume), s.disk), Tail(plan) + 5;
    ResumeConverges(plan, initial, s, budget);
    ProvenanceSpared(plan, s.disk);
    var t, left;
    cut, t, left := CutBefore(items, 0, j, Some(Resume), s, budget, 2);
    CutAfterPublication(plan, items, j, t, left);
    cut := cut + 2;
    var r := RunRecover(plan, Resume, s, cut).state;
    ResumeConverges(plan, initial, s, cut);
    var e := RunRecover(plan, Resume, r, ResumeCost(plan));
    ResumeConverges(plan, initial, r, ResumeCost(plan));
    ResumePassesGate(plan, initial, r, ResumeCost(plan));
    forall history: seq<Command> ensures !GateAccepts(Replay(plan, e.state, history)) { GateVerdictIsFinal(plan, e.state, history); }
  }

  // -------------------------------------------------------- a resume refused late

  /** A run with three writes for every item left is not cut. */
  lemma {:induction false} NeverCut(items: seq<Item>, k: nat, mode: Option<Action>, s: State, budget: nat)
    requires k <= |items| && budget >= 3 * (|items| - k)
    ensures RunFrom(items, k, mode, s, budget).outcome in {Finished, Refused}
    decreases |items| - k
  {
    hide Exec, Test, Located, WithoutTransaction;
    if k < |items| {
      var r := RunItem(items[k], mode, s, budget);
      if r.outcome == Running { NeverCut(items, k + 1, mode, r.state, r.budget); }
    }
  }

  /** A resume that passes its first checks and is not cut signs the journal. */
  lemma {:induction false} Signs(plan: Plan, items: seq<Item>, k: nat, s: State, budget: nat)
    requires IsResume(items, plan) && k <= |items| && budget >= 3 * (|items| - k)
    requires k > 3 ==> s.journal.Some? && s.journal.value.action == Some(Resume)
    ensures var j := RunFrom(items, k, Some(Resume), s, budget).state.journal; j.Some? && j.value.action == Some(Resume)
    decreases |items| - k
  {
    hide Exec, Located, WithoutTransaction;
    if k < |items| {
      var r := RunItem(items[k], Some(Resume), s, budget);
      if r.outcome == Running { Signs(plan, items, k + 1, r.state, r.budget); }
    }
  }

  /** An uninterrupted resume is refused exactly if a rollback has withdrawn something, before or after its first change. */
  lemma RefusedExactly(plan: Plan, initial: Disk, s: State)
    requires WellFormed(plan) && Initial(plan, initial) && Inv(plan, initial, s)
    requires s.journal.Some? && !s.journal.value.committed
    ensures var e := RunRecover(plan, Resume, s, ResumeCost(plan));
      && (e.outcome == Refused <==> !NothingWithdrawn(plan, s.disk))
      && (!Preflight(plan, s, Resume) ==> e.state == s)
      && (Preflight(plan, s, Resume) ==> e.state.journal.Some? && e.state.journal.value.action == Some(Resume))
      && (Preflight(plan, s, Resume) && s.journal.value.action != Some(Resume) ==> e.state != s)
  {
    hide RunFrom, Items, Preflight, Inv, Initial, WellFormed, NothingWithdrawn, RunMigrate, IsResume;
    ResumeConverges(plan, initial, s, ResumeCost(plan));
    if Preflight(plan, s, Resume) {
      var items := Items(plan, Recover(Resume), s.disk);
      ResumeItems(plan, s.disk);
      ResumeLength(items, plan);
      NeverCut(items, 0, Some(Resume), s, ResumeCost(plan));
      Signs(plan, items, 0, s, ResumeCost(plan));
    }
  }

  lemma ResumeLength(items: seq<Item>, plan: Plan)
    requires IsResume(items, plan)
    ensures |items| == Tail(plan) + 9
  {
  }
}
