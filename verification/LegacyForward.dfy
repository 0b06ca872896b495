/** The forward migration on an undisturbed disk: never refused, safe at every crash point. */
module LegacyForward {
  import opened Options
  import opened LegacyModel
  import opened LegacyProgram
  import opened LegacyInvariant
  import opened LegacySteps
  import opened LegacyResume

  function ForwardTailStart(plan: Plan): nat {
    13 + |plan.issuers| + |plan.quarantine|
  }

  function ForwardAuthority(a: Authority, k: nat, t: nat): AuthorityView {
    var later := if a == Root then 0 else 1;
    AuthorityView(
      if k > 5 + 2 * later then GenerationSide else LegacySide,
      if k > 9 + later then New else Original,
      if k > t + 1 + later then WasConsumed else if k > 2 + later then WasReserved else NotReserved,
      false)
  }

  /** The one view in which a forward run can be after `k` items. */
  function ForwardView(plan: Plan, k: nat): View {
    var n, t := |plan.issuers|, ForwardTailStart(plan);
    View(
      if k > 1 then Published else Staging,
      if k > t + 4 then Published else Staging,
      if k > t + 6 then Published else Staging,
      ForwardAuthority(Root, k, t),
      ForwardAuthority(Intermediate, k, t),
      seq(n, i => if 12 + i < k then Published else Staging),
      seq(|plan.quarantine|, i => 13 + n + i < k),
      k <= t + 10)
  }

  predicate IsForward(items: seq<Item>, plan: Plan) {
    var n, t := |plan.issuers|, ForwardTailStart(plan);
    && |items| == t + 11
    && items[0] == Mark(PreMutation)
    && items[1] == Do(ResumeSession(plan).op)
    && items[2] == Do(ResumeReserve(plan, Root).op)
    && items[3] == Do(ResumeReserve(plan, Intermediate).op)
    && items[4] == Mark(ReservedPhase)
    && items[5] == Do(ResumeRename(plan, Root).op)
    && items[6] == Mark(RootRenamed)
    && items[7] == Do(ResumeRename(plan, Intermediate).op)
    && items[8] == Mark(IntermediateRenamed)
    && items[9] == Do(ResumeConfig(plan, Root).op)
    && items[10] == Do(ResumeConfig(plan, Intermediate).op)
    && items[11] == Mark(ConfigsPublished)
    && (forall i :: 0 <= i < n ==> items[12 + i] == Do(ResumeIssuer(plan.issuers[i]).op))
    && items[12 + n] == Mark(IssuersPublished)
    && (forall i :: 0 <= i < |plan.quarantine| ==> items[13 + n + i] == Do(ResumeQuarantine(plan.quarantine[i]).op))
    && items[t] == Mark(QuarantinedPhase)
    && items[t + 1] == Do(ResumeConsume(plan, Root).op)
    && items[t + 2] == Do(ResumeConsume(plan, Intermediate).op)
    && items[t + 3] == Mark(ActivePending)
    && items[t + 4] == Do(ResumeActive(plan).op)
    && items[t + 5] == Mark(ActivePublished)
    && items[t + 6] == Do(MoveProvenance(plan.provenance))
    && items[t + 7] == Mark(ProvenancePublished)
    && items[t + 8] == Commit(Complete)
    && items[t + 9] == DropMarker
    && items[t + 10] == DropTransaction(plan.transaction)
  }

  lemma ForwardHeadItems(plan: Plan)
    ensures var h := ForwardHead(plan);
      && |h| == 12
      && h[0] == Mark(PreMutation) && h[1] == Do(ResumeSession(plan).op)
      && h[2] == Do(ResumeReserve(plan, Root).op) && h[3] == Do(ResumeReserve(plan, Intermediate).op)
      && h[4] == Mark(ReservedPhase) && h[5] == Do(ResumeRename(plan, Root).op) && h[6] == Mark(RootRenamed)
      && h[7] == Do(ResumeRename(plan, Intermediate).op) && h[8] == Mark(IntermediateRenamed)
      && h[9] == Do(ResumeConfig(plan, Root).op) && h[10] == Do(ResumeConfig(plan, Intermediate).op)
      && h[11] == Mark(ConfigsPublished)
  {
  }

  lemma ForwardTailItems(plan: Plan)
    ensures var h := ForwardTail(plan);
      && |h| == 11
      && h[0] == Mark(QuarantinedPhase) && h[1] == Do(ResumeConsume(plan, Root).op)
      && h[2] == Do(ResumeConsume(plan, Intermediate).op) && h[3] == Mark(ActivePending)
      && h[4] == Do(ResumeActive(plan).op) && h[5] == Mark(ActivePublished) && h[6] == Do(MoveProvenance(plan.provenance))
      && h[7] == Mark(ProvenancePublished) && h[8] == Commit(Complete) && h[9] == DropMarker
      && h[10] == DropTransaction(plan.transaction)
  {
  }

  lemma ForwardItems(plan: Plan, origin: Disk)
    ensures IsForward(Items(plan, Migrate, origin), plan)
  {
    var n, t, items := |plan.issuers|, ForwardTailStart(plan), Items(plan, Migrate, origin);
    var head, tail := ForwardHead(plan), ForwardTail(plan);
    var front := items[..t];
    assert items == front + tail;
    assert items[..12] == head;
    ForwardHeadItems(plan);
    ForwardTailItems(plan);
    forall i | 0 <= i < 12 ensures items[i] == head[i] { assert items[..12][i] == head[i]; }
    forall i | 0 <= i < 11 ensures items[t + i] == tail[i] { assert (front + tail)[t + i] == tail[i]; }
  }

  ghost predicate ForwardReady(plan: Plan, initial: Disk, k: nat, s: State) {
    && WellFormed(plan)
    && Consistent(plan, initial, ForwardView(plan, k), s)
    && (k == 0 ==> s.journal.None?)
    && (k > 0 ==> s.journal.Some? && s.journal.value.action == None && s.journal.value.step == NoStep
                  && (s.journal.value.committed <==> k > ForwardTailStart(plan) + 8))
    && (k > ForwardTailStart(plan) + 8 ==> s.journal.value.phase == Complete)
    && (k > ForwardTailStart(plan) + 9 ==> !s.marker)
  }

  ghost predicate ForwardStep(plan: Plan, initial: Disk, k: nat, s: State, budget: nat, item: Item) {
    var r := RunItem(item, None, s, budget);
    && (r.outcome == (if budget == 0 then Crashed else Running))
    && (r.outcome == Crashed ==> r.state == s)
    && (r.outcome == Running ==> ForwardReady(plan, initial, k + 1, r.state) && r.budget == budget - 1)
  }

  /** An operation of the forward run, given that it works and leads to the next view. */
  lemma ForwardDoes(plan: Plan, initial: Disk, k: nat, s: State, budget: nat, op: Op)
    requires 0 < k < ForwardTailStart(plan) + 8 && ForwardReady(plan, initial, k, s)
    requires Exec(op, s.disk).Some? && Depicts(plan, initial, ForwardView(plan, k + 1), Exec(op, s.disk).value)
    ensures ForwardStep(plan, initial, k, s, budget, Do(op))
  {
    ForwardViewOk(plan, k + 1);
  }

  lemma ForwardViewOk(plan: Plan, k: nat)
    requires k <= ForwardTailStart(plan) + 10
    ensures ViewOk(ForwardView(plan, k))
    ensures k > ForwardTailStart(plan) + 6 ==> Delivered(ForwardView(plan, k))
  {
  }

  lemma ForwardMarks(plan: Plan, initial: Disk, k: nat, s: State, budget: nat, phase: Phase)
    requires k < ForwardTailStart(plan) + 8 && ForwardReady(plan, initial, k, s)
    requires ForwardView(plan, k + 1) == ForwardView(plan, k)
    ensures ForwardStep(plan, initial, k, s, budget, Mark(phase))
  {
    ForwardViewOk(plan, k);
  }

  /** Views differ between consecutive positions only in what the item between them does. */
  lemma SameView(plan: Plan, k: nat)
    requires k in {0, 4, 6, 8, 11, 12 + |plan.issuers|}
             || k - ForwardTailStart(plan) in {0, 3, 5, 7, 8, 9}
    ensures ForwardView(plan, k + 1) == ForwardView(plan, k)
  {
    var x, y := ForwardView(plan, k), ForwardView(plan, k + 1);
    assert x.issuers == y.issuers && x.quarantined == y.quarantined;
  }

  lemma ForwardsHead(plan: Plan, initial: Disk, items: seq<Item>, k: nat, s: State, budget: nat)
    requires IsForward(items, plan) && k < 12 && ForwardReady(plan, initial, k, s)
    ensures ForwardStep(plan, initial, k, s, budget, items[k])
  {
    hide ForwardStep, Exec, Expected;
    var v, w, d := ForwardView(plan, k), ForwardView(plan, k + 1), s.disk;
    if k in {0, 4, 6, 8, 11} {
      SameView(plan, k);
      ForwardMarks(plan, initial, k, s, budget, items[k].phase);
    } else {
      assert w.issuers == v.issuers && w.quarantined == v.quarantined;
      if k == 1 {
        SessionPublishes(plan, initial, v, d);
      } else if k < 4 {
        ReservationPublishes(plan, initial, v, d, if k == 2 then Root else Intermediate);
      } else if k == 5 || k == 7 {
        MovesTree(plan, initial, v, d, if k == 5 then Root else Intermediate, LegacySide, GenerationSide);
      } else {
        ConfigPublishes(plan, initial, v, d, if k == 9 then Root else Intermediate);
      }
      ForwardDoes(plan, initial, k, s, budget, items[k].op);
    }
  }

  lemma ForwardsList(plan: Plan, initial: Disk, items: seq<Item>, k: nat, s: State, budget: nat)
    requires IsForward(items, plan) && 12 <= k < ForwardTailStart(plan) && ForwardReady(plan, initial, k, s)
    ensures ForwardStep(plan, initial, k, s, budget, items[k])
  {
    hide ForwardStep, Exec, Expected, ForwardReady;
    var n := |plan.issuers|;
    if k == 12 + n {
      SameView(plan, k);
      ForwardMarks(plan, initial, k, s, budget, IssuersPublished);
    } else if k < 12 + n {
      assert items[12 + (k - 12)] == Do(ResumeIssuer(plan.issuers[k - 12]).op);
      ForwardsIssuer(plan, initial, k - 12, s, budget);
    } else {
      assert items[13 + n + (k - 13 - n)] == Do(ResumeQuarantine(plan.quarantine[k - 13 - n]).op);
      ForwardsQuarantine(plan, initial, k - 13 - n, s, budget);
    }
  }

  lemma ForwardsIssuer(plan: Plan, initial: Disk, i: nat, s: State, budget: nat)
    requires i < |plan.issuers| && ForwardReady(plan, initial, 12 + i, s)
    ensures ForwardStep(plan, initial, 12 + i, s, budget, Do(ResumeIssuer(plan.issuers[i]).op))
  {
    hide ForwardStep, Exec, Expected;
    var v, w := ForwardView(plan, 12 + i), ForwardView(plan, 13 + i);
    assert w.issuers == v.issuers[i := Published] && w.quarantined == v.quarantined;
    IssuerPublishes(plan, initial, v, s.disk, i);
    ForwardDoes(plan, initial, 12 + i, s, budget, ResumeIssuer(plan.issuers[i]).op);
  }

  lemma ForwardsQuarantine(plan: Plan, initial: Disk, i: nat, s: State, budget: nat)
    requires i < |plan.quarantine| && ForwardReady(plan, initial, 13 + |plan.issuers| + i, s)
    ensures ForwardStep(plan, initial, 13 + |plan.issuers| + i, s, budget, Do(ResumeQuarantine(plan.quarantine[i]).op))
  {
    hide ForwardStep, Exec, Expected;
    var k := 13 + |plan.issuers| + i;
    var v, w := ForwardView(plan, k), ForwardView(plan, k + 1);
    assert w.issuers == v.issuers && w.quarantined == v.quarantined[i := true];
    QuarantineMoves(plan, initial, v, s.disk, i);
    ForwardDoes(plan, initial, k, s, budget, ResumeQuarantine(plan.quarantine[i]).op);
  }

  lemma ForwardsConsume(plan: Plan, initial: Disk, a: Authority, k: nat, s: State, budget: nat)
    requires k == ForwardTailStart(plan) + (if a == Root then 1 else 2) && ForwardReady(plan, initial, k, s)
    ensures ForwardStep(plan, initial, k, s, budget, Do(ResumeConsume(plan, a).op))
  {
    hide ForwardStep, Exec, Expected;
    var v, w := ForwardView(plan, k), ForwardView(plan, k + 1);
    assert w.issuers == v.issuers && w.quarantined == v.quarantined;
    assert w == v.With(a, v.Of(a).(reservation := WasConsumed));
    ReservationConsumes(plan, initial, v, s.disk, a);
    ForwardDoes(plan, initial, k, s, budget, ResumeConsume(plan, a).op);
  }

  lemma ForwardsActive(plan: Plan, initial: Disk, k: nat, s: State, budget: nat)
    requires k == ForwardTailStart(plan) + 4 && ForwardReady(plan, initial, k, s)
    ensures ForwardStep(plan, initial, k, s, budget, Do(ResumeActive(plan).op))
  {
    hide ForwardStep, Exec, Expected;
    var v, w := ForwardView(plan, k), ForwardView(plan, k + 1);
    assert w.issuers == v.issuers && w.quarantined == v.quarantined;
    ActivePublishes(plan, initial, v, s.disk);
    ForwardDoes(plan, initial, k, s, budget, ResumeActive(plan).op);
  }

  lemma ForwardsProvenance(plan: Plan, initial: Disk, k: nat, s: State, budget: nat)
    requires k == ForwardTailStart(plan) + 6 && ForwardReady(plan, initial, k, s)
    ensures ForwardStep(plan, initial, k, s, budget, Do(MoveProvenance(plan.provenance)))
  {
    hide ForwardStep, Exec, Expected;
    var v, w := ForwardView(plan, k), ForwardView(plan, k + 1);
    assert w.issuers == v.issuers && w.quarantined == v.quarantined;
    ProvenanceMoves(plan, initial, v, s.disk);
    ForwardDoes(plan, initial, k, s, budget, MoveProvenance(plan.provenance));
  }

  lemma ForwardsTail(plan: Plan, initial: Disk, items: seq<Item>, j: nat, s: State, budget: nat)
    requires IsForward(items, plan) && j < 8 && ForwardReady(plan, initial, ForwardTailStart(plan) + j, s)
    ensures ForwardStep(plan, initial, ForwardTailStart(plan) + j, s, budget, items[ForwardTailStart(plan) + j])
  {
    hide ForwardStep, ForwardReady;
    var k := ForwardTailStart(plan) + j;
    if j == 1 || j == 2 {
      ForwardsConsume(plan, initial, if j == 1 then Root else Intermediate, k, s, budget);
    } else if j == 4 {
      ForwardsActive(plan, initial, k, s, budget);
    } else if j == 6 {
      ForwardsProvenance(plan, initial, k, s, budget);
    } else {
      SameView(plan, k);
      ForwardMarks(plan, initial, k, s, budget, items[k].phase);
    }
  }

  lemma ForwardsCommit(plan: Plan, initial: Disk, j: nat, s: State, budget: nat)
    requires 8 <= j < 10 && ForwardReady(plan, initial, ForwardTailStart(plan) + j, s)
    ensures ForwardStep(plan, initial, ForwardTailStart(plan) + j, s, budget, if j == 8 then Commit(Complete) else DropMarker)
  {
    hide Expected, Depicts, ForwardView;
    var k := ForwardTailStart(plan) + j;
    ForwardViewOk(plan, k);
    SameView(plan, k);
  }

  lemma ForwardsDrop(plan: Plan, initial: Disk, s: State, budget: nat)
    requires ForwardReady(plan, initial, ForwardTailStart(plan) + 10, s)
    ensures ForwardStep(plan, initial, ForwardTailStart(plan) + 10, s, budget, DropTransaction(plan.transaction))
  {
    hide Expected, Depicts, ViewOk;
    var k := ForwardTailStart(plan) + 10;
    var v, w := ForwardView(plan, k), ForwardView(plan, k + 1);
    ForwardViewOk(plan, k);
    assert w.issuers == v.issuers && w.quarantined == v.quarantined;
    TransactionThere(plan, initial, v, s.disk);
    TransactionDrops(plan, initial, v, s.disk);
  }

  lemma ForwardsItem(plan: Plan, initial: Disk, items: seq<Item>, k: nat, s: State, budget: nat)
    requires IsForward(items, plan) && k < |items| && ForwardReady(plan, initial, k, s)
    ensures ForwardStep(plan, initial, k, s, budget, items[k])
  {
    hide ForwardStep, ForwardReady;
    var t := ForwardTailStart(plan);
    if k < 12 { ForwardsHead(plan, initial, items, k, s, budget); }
    else if k < t { ForwardsList(plan, initial, items, k, s, budget); }
    else if k < t + 8 { ForwardsTail(plan, initial, items, k - t, s, budget); }
    else if k < t + 10 { ForwardsCommit(plan, initial, k - t, s, budget); }
    else { ForwardsDrop(plan, initial, s, budget); }
  }

  lemma ForwardViewEnds(plan: Plan)
    ensures ForwardView(plan, ForwardTailStart(plan) + 11) == MigratedView(plan)
  {
    var x, y := ForwardView(plan, ForwardTailStart(plan) + 11), MigratedView(plan);
    assert x.issuers == y.issuers && x.quarantined == y.quarantined;
  }

  ghost predicate ForwardEnds(plan: Plan, initial: Disk, k: nat, budget: nat, e: Ending) {
    && Inv(plan, initial, e.state)
    && (e.outcome == if budget < ForwardTailStart(plan) + 11 - k then Crashed else Finished)
    && (e.state.journal.Some? ==> e.state.journal.value.action == None && e.state.journal.value.step == NoStep)
    && (k > 0 || budget > 0 ==> e.state.journal.Some?)
    && (exists j :: 0 <= j <= ForwardTailStart(plan) + 11 && Consistent(plan, initial, ForwardView(plan, j), e.state))
    && (e.outcome == Finished ==>
          && Depicts(plan, initial, MigratedView(plan), e.state.disk) && !e.state.marker
          && e.state.journal == Some(Journal(Complete, None, NoStep, true)))
  }

  lemma {:induction false} ForwardRuns(plan: Plan, initial: Disk, items: seq<Item>, k: nat, s: State, budget: nat)
    requires IsForward(items, plan) && k <= |items| && ForwardReady(plan, initial, k, s)
    ensures ForwardEnds(plan, initial, k, budget, RunFrom(items, k, None, s, budget))
    decreases |items| - k
  {
    hide RunItem, Depicts, ViewOk, ForwardView, JournalOk, WellFormed;
    assert Consistent(plan, initial, ForwardView(plan, k), s);
    if k == |items| {
      ForwardViewEnds(plan);
    } else {
      ForwardsItem(plan, initial, items, k, s, budget);
      var r := RunItem(items[k], None, s, budget);
      if r.outcome == Running {
        ForwardRuns(plan, initial, items, k + 1, r.state, r.budget);
      }
    }
  }
}
