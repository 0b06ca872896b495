/**
 Resume, item by item: it keeps the invariant whatever happens, and it goes through to the end
 exactly when no rollback has destroyed anything that it needs.
*/
module LegacyResume {
  import opened Options
  import opened LegacyModel
  import opened LegacyProgram
  import opened LegacyInvariant
  import opened LegacySteps

  /** Where the tail of the resume program starts. */
  function Tail(plan: Plan): nat {
    14 + |plan.issuers| + |plan.quarantine|
  }

  /** No rollback has taken anything away: every object is staged or published. */
  predicate Intact(v: View) {
    && v.session != Removed && v.active != Removed && v.provenance != Removed
    && !v.root.abandoned && !v.intermediate.abandoned
    && v.root.config != Restored && v.intermediate.config != Restored
    && forall i :: 0 <= i < |v.issuers| ==> v.issuers[i] != Removed
  }

  predicate Stripped(d: Disk) {
    ProvenanceStage !in d && ProvenanceDir !in d
  }

  ghost predicate IntactState(plan: Plan, initial: Disk, s: State) {
    exists v :: Consistent(plan, initial, v, s) && Intact(v)
  }

  /** What the checks before the first change of a resume establish; they do not rule out every loss. */
  predicate Stocked(v: View) {
    && v.session != Removed && v.active != Removed
    && forall i :: 0 <= i < |v.issuers| ==> v.issuers[i] != Removed
  }

  predicate Delivered(v: View) {
    AllPublished(v) && v.active == Published && v.provenance == Published
  }

  /** What the first `k` items of a resume have achieved. */
  predicate ResumeAt(plan: Plan, k: nat, v: View) {
    var n, t := |plan.issuers|, Tail(plan);
    && |v.issuers| == n && |v.quarantined| == |plan.quarantine|
    && (k > 0 ==> v.session == Published)
    && (k > 1 ==> v.root.reservation != NotReserved || v.root.abandoned)
    && (k > 2 ==> v.intermediate.reservation != NotReserved || v.intermediate.abandoned)
    && (k > 5 ==> v.root.side == GenerationSide)
    && (k > 8 ==> v.intermediate.side == GenerationSide)
    && (k > 10 ==> v.root.config == New)
    && (k > 11 ==> v.intermediate.config == New)
    && (forall i :: 0 <= i < n && i + 13 < k ==> v.issuers[i] == Published)
    && (forall i :: 0 <= i < |plan.quarantine| && i + 14 + n < k ==> v.quarantined[i])
    && (k > t + 1 ==> v.root.reservation == WasConsumed && !v.root.abandoned)
    && (k > t + 2 ==> v.intermediate.reservation == WasConsumed && !v.intermediate.abandoned)
    && (k > t + 4 ==> v.active == Published)
    && (k > t + 5 ==> v.provenance == Published)
  }

  predicate IsResume(items: seq<Item>, plan: Plan) {
    var n, t := |plan.issuers|, Tail(plan);
    && |items| == t + 9
    && items[0] == ResumeSession(plan)
    && items[1] == ResumeReserve(plan, Root)
    && items[2] == ResumeReserve(plan, Intermediate)
    && items[3] == Mark(ReservedPhase)
    && items[4] == Locate(Root, plan.root.tree)
    && items[5] == ResumeRename(plan, Root)
    && items[6] == Mark(RootRenamed)
    && items[7] == Locate(Intermediate, plan.intermediate.tree)
    && items[8] == ResumeRename(plan, Intermediate)
    && items[9] == Mark(IntermediateRenamed)
    && items[10] == ResumeConfig(plan, Root)
    && items[11] == ResumeConfig(plan, Intermediate)
    && items[12] == Mark(ConfigsPublished)
    && (forall i :: 0 <= i < n ==> items[13 + i] == ResumeIssuer(plan.issuers[i]))
    && items[13 + n] == Mark(IssuersPublished)
    && (forall i :: 0 <= i < |plan.quarantine| ==> items[14 + n + i] == ResumeQuarantine(plan.quarantine[i]))
    && items[t] == Mark(QuarantinedPhase)
    && items[t + 1] == ResumeConsume(plan, Root)
    && items[t + 2] == ResumeConsume(plan, Intermediate)
    && items[t + 3] == Mark(ActivePending)
    && items[t + 4] == ResumeActive(plan)
    && items[t + 5] == ResumeProvenance(plan)
    && items[t + 6] == Commit(Complete)
    && items[t + 7] == DropMarker
    && items[t + 8] == DropTransaction(plan.transaction)
  }

  lemma ResumeItems(plan: Plan, origin: Disk)
    ensures IsResume(Items(plan, Recover(Resume), origin), plan)
  {
    hide ResumeSession, ResumeReserve, ResumeRename, ResumeConfig, ResumeConsume, ResumeIssuer, ResumeQuarantine, ResumeActive,
      ResumeProvenance, ResumeHead, ResumeTail, Items;
    ResumeHeadItems(plan);
    ResumeTailItems(plan);
    ResumeLayout(plan, origin);
  }

  /** The list of items: head, issuers, a mark, quarantine files, tail. */
  lemma ResumeLayout(plan: Plan, origin: Disk)
    requires |ResumeHead(plan)| == 13 && |ResumeTail(plan)| == 9
    ensures var items, n, t := Items(plan, Recover(Resume), origin), |plan.issuers|, Tail(plan);
      && |items| == t + 9
      && (forall i :: 0 <= i < 13 ==> items[i] == ResumeHead(plan)[i])
      && (forall i :: 0 <= i < n ==> items[13 + i] == ResumeIssuer(plan.issuers[i]))
      && items[13 + n] == Mark(IssuersPublished)
      && (forall i :: 0 <= i < |plan.quarantine| ==> items[14 + n + i] == ResumeQuarantine(plan.quarantine[i]))
      && (forall i :: 0 <= i < 9 ==> items[t + i] == ResumeTail(plan)[i])
  {
    hide ResumeIssuer, ResumeQuarantine, ResumeHead, ResumeTail;
  }

  lemma ResumeHeadItems(plan: Plan)
    ensures var h := ResumeHead(plan);
      && |h| == 13
      && h[0] == ResumeSession(plan) && h[1] == ResumeReserve(plan, Root) && h[2] == ResumeReserve(plan, Intermediate)
      && h[3] == Mark(ReservedPhase) && h[4] == Locate(Root, plan.root.tree) && h[5] == ResumeRename(plan, Root)
      && h[6] == Mark(RootRenamed) && h[7] == Locate(Intermediate, plan.intermediate.tree)
      && h[8] == ResumeRename(plan, Intermediate) && h[9] == Mark(IntermediateRenamed)
      && h[10] == ResumeConfig(plan, Root) && h[11] == ResumeConfig(plan, Intermediate) && h[12] == Mark(ConfigsPublished)
  {
  }

  lemma ResumeTailItems(plan: Plan)
    ensures var h := ResumeTail(plan);
      && |h| == 9
      && h[0] == Mark(QuarantinedPhase) && h[1] == ResumeConsume(plan, Root) && h[2] == ResumeConsume(plan, Intermediate)
      && h[3] == Mark(ActivePending) && h[4] == ResumeActive(plan) && h[5] == ResumeProvenance(plan)
      && h[6] == Commit(Complete) && h[7] == DropMarker && h[8] == DropTransaction(plan.transaction)
  {
  }

  ghost predicate ResumeReady(plan: Plan, initial: Disk, k: nat, v: View, s: State) {
    WellFormed(plan) && Active(plan, initial, v, s) && ResumeAt(plan, k, v) && Stocked(v)
  }

  /** One item: safe wherever it stops, and refused only when something had been taken away. */
  ghost predicate ResumeStep(plan: Plan, initial: Disk, k: nat, v: View, v': View, s: State, budget: nat, item: Item)
    requires s.journal.Some?
  {
    var r := RunItem(item, Some(Resume), s, budget);
    && Inv(plan, initial, r.state)
    && (Intact(v) ==> Progresses(r, budget) && IntactState(plan, initial, r.state))
    && (v.provenance != Removed ==> Traced(plan, r.state))
    && (v.provenance == Removed ==> Stripped(r.state.disk))
    && (r.outcome == Running ==>
          && ResumeReady(plan, initial, k + 1, v', r.state)
          && (Intact(v') <==> Intact(v))
          && (Delivered(v) ==> v' == v && r.state.journal.value.step == s.journal.value.step)
          && (v.provenance == Staging ==>
                if k == Tail(plan) + 5 then r.state.journal.value.step == Done(Resume, ProvenancePoint)
                else v'.provenance == Staging)
          && (v.provenance != Removed <==> v'.provenance != Removed))
  }

  /** A guarded item of a resume is safe when its operation leads from one view to the next. */
  lemma ResumeStepHolds(plan: Plan, initial: Disk, k: nat, v: View, v': View, s: State, budget: nat, item: Item)
    requires ResumeReady(plan, initial, k, v, s)
    requires item.Guarded? && (item.point == ProvenancePoint <==> k == Tail(plan) + 5)
    requires Test(item.guard, s.disk) ==> Exec(item.op, s.disk).Some? && Depicts(plan, initial, v', Exec(item.op, s.disk).value)
    requires !Test(item.guard, s.disk) ==> v' == v
    requires Intact(v) ==> Test(item.guard, s.disk) || Test(item.otherwise, s.disk)
    requires Delivered(v) ==> !Test(item.guard, s.disk)
    requires Test(item.guard, s.disk) || Test(item.otherwise, s.disk) ==> ResumeAt(plan, k + 1, v')
    requires ViewOk(v') && Stocked(v') && (Intact(v') <==> Intact(v))
    requires if k == Tail(plan) + 5 then (Test(item.guard, s.disk) <==> v.provenance == Staging) && v'.provenance != Removed
             else v'.provenance == v.provenance
    ensures ResumeStep(plan, initial, k, v, v', s, budget, item)
  {
    hide RunItem, ResumeAt, Exec, Test, Depicts, WellFormed, Stocked, Delivered;
    GuardedKeeps(plan, initial, item, Resume, s, budget, v, v');
    AccountedInView(plan, initial, v, s);
    if v.provenance == Removed { StrippedInView(plan, initial, v, v', RunItem(item, Some(Resume), s, budget).state); }
  }

  lemma StrippedInView(plan: Plan, initial: Disk, v: View, v': View, s: State)
    requires Consistent(plan, initial, v, s) || Consistent(plan, initial, v', s)
    requires v.provenance == Removed && v'.provenance == Removed
    ensures Stripped(s.disk)
  {
    ProvenanceReads(plan, initial, if Consistent(plan, initial, v, s) then v else v', s.disk);
  }

  lemma ResumesSession(plan: Plan, initial: Disk, v: View, s: State, budget: nat) returns (v': View)
    requires ResumeReady(plan, initial, 0, v, s)
    ensures ResumeStep(plan, initial, 0, v, v', s, budget, ResumeSession(plan))
  {
    hide ResumeStep, Exec, StagedObject;
    assert At(s.disk, BackupSession) == Expected(plan, initial, v, BackupSession);
    v' := v.(session := Published);
    if v.session == Staging { SessionPublishes(plan, initial, v, s.disk); }
    ResumeStepHolds(plan, initial, 0, v, v', s, budget, ResumeSession(plan));
  }

  lemma ResumesReserve(plan: Plan, initial: Disk, a: Authority, v: View, s: State, budget: nat) returns (v': View)
    requires ResumeReady(plan, initial, if a == Root then 1 else 2, v, s)
    ensures ResumeStep(plan, initial, if a == Root then 1 else 2, v, v', s, budget, ResumeReserve(plan, a))
  {
    hide ResumeStep, Exec, StagedObject, Expected;
    ReservationReads(plan, initial, v, s.disk, a);
    var x := v.Of(a);
    v' := if x.reservation == NotReserved && !x.abandoned then v.With(a, x.(reservation := WasReserved)) else v;
    if x.reservation == NotReserved && !x.abandoned { ReservationPublishes(plan, initial, v, s.disk, a); }
    ResumeStepHolds(plan, initial, if a == Root then 1 else 2, v, v', s, budget, ResumeReserve(plan, a));
  }

  lemma ResumesRename(plan: Plan, initial: Disk, a: Authority, v: View, s: State, budget: nat) returns (v': View)
    requires ResumeReady(plan, initial, if a == Root then 5 else 8, v, s)
    ensures ResumeStep(plan, initial, if a == Root then 5 else 8, v, v', s, budget, ResumeRename(plan, a))
  {
    hide ResumeStep, Exec, StagedObject, Expected;
    LocatedInView(plan, initial, v, s.disk, a);
    v' := v.With(a, v.Of(a).(side := GenerationSide));
    if v.Of(a).side == LegacySide { MovesTree(plan, initial, v, s.disk, a, LegacySide, GenerationSide); }
    ResumeStepHolds(plan, initial, if a == Root then 5 else 8, v, v', s, budget, ResumeRename(plan, a));
  }

  lemma ResumesConfig(plan: Plan, initial: Disk, a: Authority, v: View, s: State, budget: nat) returns (v': View)
    requires ResumeReady(plan, initial, if a == Root then 10 else 11, v, s)
    ensures ResumeStep(plan, initial, if a == Root then 10 else 11, v, v', s, budget, ResumeConfig(plan, a))
  {
    hide ResumeStep, Exec, StagedObject, Expected;
    ConfigReads(plan, initial, v, s.disk, a);
    v' := if v.Of(a).config == Original then v.With(a, v.Of(a).(config := New)) else v;
    if v.Of(a).config == Original { ConfigPublishes(plan, initial, v, s.disk, a); }
    ResumeStepHolds(plan, initial, if a == Root then 10 else 11, v, v', s, budget, ResumeConfig(plan, a));
  }

  lemma ResumesIssuer(plan: Plan, initial: Disk, i: nat, v: View, s: State, budget: nat) returns (v': View)
    requires i < |plan.issuers| && ResumeReady(plan, initial, 13 + i, v, s)
    ensures ResumeStep(plan, initial, 13 + i, v, v', s, budget, ResumeIssuer(plan.issuers[i]))
  {
    hide ResumeStep, Exec, StagedObject;
    IndexOfName(plan.issuers, i);
    assert At(s.disk, Issuer(plan.issuers[i].name)) == Expected(plan, initial, v, Issuer(plan.issuers[i].name));
    v' := v.(issuers := v.issuers[i := Published]);
    if v.issuers[i] == Staging { IssuerPublishes(plan, initial, v, s.disk, i); } else { assert v' == v; }
    ResumeStepHolds(plan, initial, 13 + i, v, v', s, budget, ResumeIssuer(plan.issuers[i]));
  }

  lemma ResumesQuarantine(plan: Plan, initial: Disk, i: nat, v: View, s: State, budget: nat) returns (v': View)
    requires i < |plan.quarantine| && ResumeReady(plan, initial, 14 + |plan.issuers| + i, v, s)
    ensures ResumeStep(plan, initial, 14 + |plan.issuers| + i, v, v', s, budget, ResumeQuarantine(plan.quarantine[i]))
  {
    hide ResumeStep, Exec, Expected;
    var e := plan.quarantine[i];
    ExpectedQuarantine(plan, initial, v, i, v.quarantined[i], Staged(Quarantined(e.name)));
    ExpectedQuarantine(plan, initial, v, i, v.quarantined[i], Scaffold(e.name));
    assert v.quarantined[i := v.quarantined[i]] == v.quarantined;
    assert At(s.disk, Staged(Quarantined(e.name))) == When(v.quarantined[i], e.obj);
    assert At(s.disk, Scaffold(e.name)) == When(!v.quarantined[i], e.obj);
    v' := v.(quarantined := v.quarantined[i := true]);
    if !v.quarantined[i] { QuarantineMoves(plan, initial, v, s.disk, i); } else { assert v' == v; }
    ResumeStepHolds(plan, initial, 14 + |plan.issuers| + i, v, v', s, budget, ResumeQuarantine(e));
  }

  lemma ResumesConsume(plan: Plan, initial: Disk, a: Authority, v: View, s: State, budget: nat) returns (v': View)
    requires ResumeReady(plan, initial, Tail(plan) + (if a == Root then 1 else 2), v, s)
    ensures ResumeStep(plan, initial, Tail(plan) + (if a == Root then 1 else 2), v, v', s, budget, ResumeConsume(plan, a))
  {
    hide ResumeStep, Exec, StagedObject, Expected;
    ReservationReads(plan, initial, v, s.disk, a);
    var x := v.Of(a);
    v' := if x.reservation == WasReserved && !x.abandoned then v.With(a, x.(reservation := WasConsumed)) else v;
    if x.reservation == WasReserved && !x.abandoned { ReservationConsumes(plan, initial, v, s.disk, a); }
    ResumeStepHolds(plan, initial, Tail(plan) + (if a == Root then 1 else 2), v, v', s, budget, ResumeConsume(plan, a));
  }

  lemma ResumesActive(plan: Plan, initial: Disk, v: View, s: State, budget: nat) returns (v': View)
    requires ResumeReady(plan, initial, Tail(plan) + 4, v, s)
    ensures ResumeStep(plan, initial, Tail(plan) + 4, v, v', s, budget, ResumeActive(plan))
  {
    hide ResumeStep, Exec, StagedObject;
    assert At(s.disk, ActiveIssuer) == Expected(plan, initial, v, ActiveIssuer);
    v' := v.(active := Published);
    if v.active == Staging { ActivePublishes(plan, initial, v, s.disk); }
    ResumeStepHolds(plan, initial, Tail(plan) + 4, v, v', s, budget, ResumeActive(plan));
  }

  lemma ResumesProvenance(plan: Plan, initial: Disk, v: View, s: State, budget: nat) returns (v': View)
    requires ResumeReady(plan, initial, Tail(plan) + 5, v, s)
    ensures ResumeStep(plan, initial, Tail(plan) + 5, v, v', s, budget, ResumeProvenance(plan))
  {
    hide ResumeStep, Exec, StagedObject;
    assert At(s.disk, ProvenanceStage) == Expected(plan, initial, v, ProvenanceStage);
    v' := v.(provenance := Published);
    if v.provenance == Staging { ProvenanceMoves(plan, initial, v, s.disk); }
    ResumeStepHolds(plan, initial, Tail(plan) + 5, v, v', s, budget, ResumeProvenance(plan));
  }

  lemma ResumesMark(plan: Plan, initial: Disk, k: nat, phase: Phase, v: View, s: State, budget: nat)
    requires ResumeReady(plan, initial, k, v, s)
    requires k in {3, 6, 9, 12, 13 + |plan.issuers|, Tail(plan), Tail(plan) + 3}
    ensures ResumeStep(plan, initial, k, v, v, s, budget, Mark(phase))
  {
    hide RunItem, Consistent, Inv;
    MarkKeeps(plan, initial, phase, Resume, s, budget, v);
    if v.provenance == Removed { StrippedInView(plan, initial, v, v, RunItem(Mark(phase), Some(Resume), s, budget).state); }
  }

  lemma ResumesLocate(plan: Plan, initial: Disk, a: Authority, v: View, s: State, budget: nat)
    requires ResumeReady(plan, initial, if a == Root then 4 else 7, v, s)
    ensures ResumeStep(plan, initial, if a == Root then 4 else 7, v, v, s, budget, Locate(a, plan.Of(a).tree))
  {
    LocatedInView(plan, initial, v, s.disk, a);
    assert Consistent(plan, initial, v, s);
    AccountedInView(plan, initial, v, s);
    if v.provenance == Removed { StrippedInView(plan, initial, v, v, s); }
  }

  lemma ResumesHead(plan: Plan, initial: Disk, items: seq<Item>, k: nat, v: View, s: State, budget: nat) returns (v': View)
    requires IsResume(items, plan) && k < 13 && ResumeReady(plan, initial, k, v, s)
    ensures ResumeStep(plan, initial, k, v, v', s, budget, items[k])
  {
    hide ResumeStep, ResumeReady;
    v' := v;
    if k == 0 {
      v' := ResumesSession(plan, initial, v, s, budget);
    } else if k < 3 {
      v' := ResumesReserve(plan, initial, if k == 1 then Root else Intermediate, v, s, budget);
    } else if k == 4 || k == 7 {
      ResumesLocate(plan, initial, if k == 4 then Root else Intermediate, v, s, budget);
    } else if k == 5 || k == 8 {
      v' := ResumesRename(plan, initial, if k == 5 then Root else Intermediate, v, s, budget);
    } else if k == 10 || k == 11 {
      v' := ResumesConfig(plan, initial, if k == 10 then Root else Intermediate, v, s, budget);
    } else {
      ResumesMark(plan, initial, k, items[k].phase, v, s, budget);
    }
  }

  lemma ResumesTail(plan: Plan, initial: Disk, items: seq<Item>, j: nat, v: View, s: State, budget: nat)
    returns (v': View)
    requires IsResume(items, plan) && j < 6 && ResumeReady(plan, initial, Tail(plan) + j, v, s)
    ensures ResumeStep(plan, initial, Tail(plan) + j, v, v', s, budget, items[Tail(plan) + j])
  {
    hide ResumeStep, ResumeReady;
    v' := v;
    if j == 1 || j == 2 {
      v' := ResumesConsume(plan, initial, if j == 1 then Root else Intermediate, v, s, budget);
    } else if j == 4 {
      v' := ResumesActive(plan, initial, v, s, budget);
    } else if j == 5 {
      v' := ResumesProvenance(plan, initial, v, s, budget);
    } else {
      ResumesMark(plan, initial, Tail(plan) + j, items[Tail(plan) + j].phase, v, s, budget);
    }
  }

  lemma ResumesItem(plan: Plan, initial: Disk, items: seq<Item>, k: nat, v: View, s: State, budget: nat) returns (v': View)
    requires IsResume(items, plan) && k < Tail(plan) + 6 && ResumeReady(plan, initial, k, v, s)
    ensures ResumeStep(plan, initial, k, v, v', s, budget, items[k])
  {
    hide ResumeStep, ResumeReady;
    var n, t := |plan.issuers|, Tail(plan);
    if k < 13 {
      v' := ResumesHead(plan, initial, items, k, v, s, budget);
    } else if k < 13 + n {
      var i := k - 13;
      assert items[13 + i] == ResumeIssuer(plan.issuers[i]);
      v' := ResumesIssuer(plan, initial, i, v, s, budget);
    } else if k == 13 + n {
      v' := v;
      ResumesMark(plan, initial, k, IssuersPublished, v, s, budget);
    } else if k < t {
      var i := k - 14 - n;
      assert items[14 + n + i] == ResumeQuarantine(plan.quarantine[i]);
      v' := ResumesQuarantine(plan, initial, i, v, s, budget);
    } else {
      v' := ResumesTail(plan, initial, items, k - t, v, s, budget);
    }
  }

  /** The journal record that a finished resume leaves. */
  function CompletedJournal(step: Step): Journal {
    Journal(Complete, Some(Resume), step, true)
  }

  function MigratedView(plan: Plan): View {
    var x := AuthorityView(GenerationSide, New, WasConsumed, false);
    View(Published, Published, Published, x, x, seq(|plan.issuers|, _ => Published), seq(|plan.quarantine|, _ => true), false)
  }

  lemma DeliveredView(plan: Plan, v: View)
    requires Delivered(v) && |v.issuers| == |plan.issuers| && |v.quarantined| == |plan.quarantine|
    ensures v.(transaction := false) == MigratedView(plan)
  {
    var w := MigratedView(plan);
    assert v.issuers == w.issuers && v.quarantined == w.quarantined;
  }

  lemma ResumedView(plan: Plan, v: View)
    requires ResumeAt(plan, Tail(plan) + 6, v)
    ensures Delivered(v) && Intact(v) && |v.issuers| == |plan.issuers| && |v.quarantined| == |plan.quarantine|
    ensures AllPublished(v.(transaction := false))
  {
  }

  /** Commit, marker, transaction directory. */
  lemma ResumeCommits(plan: Plan, initial: Disk, items: seq<Item>, v: View, s: State, budget: nat)
    requires |items| == Tail(plan) + 9 && items[Tail(plan) + 6..] == [Commit(Complete), DropMarker, DropTransaction(plan.transaction)]
    requires ResumeReady(plan, initial, Tail(plan) + 6, v, s)
    ensures Delivered(v)
    ensures var e := RunFrom(items, Tail(plan) + 6, Some(Resume), s, budget);
      && Inv(plan, initial, e.state) && Traced(plan, e.state) && IntactState(plan, initial, e.state)
      && e.outcome == (if budget < 3 then Crashed else Finished)
      && (e.outcome == Finished ==>
            && Depicts(plan, initial, MigratedView(plan), e.state.disk) && !e.state.marker
            && e.state.journal == Some(CompletedJournal(s.journal.value.step)))
  {
    hide Depicts, ResumeAt, AllPublished, WellFormed, MigratedView;
    ResumedView(plan, v);
    var k := Tail(plan) + 6;
    assert items[k] == items[k..][0] && items[k + 1] == items[k..][1] && items[k + 2] == items[k..][2];
    var s1 := s.(journal := Some(CompletedJournal(s.journal.value.step)));
    var s2 := s1.(marker := false);
    var s3 := s2.(disk := WithoutTransaction(s.disk));
    var w := v.(transaction := false);
    DeliveredView(plan, v);
    AccountedInView(plan, initial, v, s);
    TransactionDrops(plan, initial, v, s.disk);
    TransactionThere(plan, initial, v, s.disk);
    assert Consistent(plan, initial, v, s) && Consistent(plan, initial, v, s1) && Consistent(plan, initial, v, s2);
    assert Consistent(plan, initial, w, s3) && Intact(w);
    assert RunFrom(items, k, Some(Resume), s, budget)
        == if budget == 0 then Ending(s, Crashed) else RunFrom(items, k + 1, Some(Resume), s1, budget - 1);
    if budget > 0 {
      assert RunFrom(items, k + 1, Some(Resume), s1, budget - 1)
          == if budget == 1 then Ending(s1, Crashed) else RunFrom(items, k + 2, Some(Resume), s2, budget - 2);
      if budget > 1 {
        assert RunFrom(items, k + 2, Some(Resume), s2, budget - 2)
            == if budget == 2 then Ending(s2, Crashed) else RunFrom(items, k + 3, Some(Resume), s3, budget - 3);
      }
    }
  }

  lemma TransactionThere(plan: Plan, initial: Disk, v: View, d: Disk)
    requires Depicts(plan, initial, v, d) && v.transaction
    ensures Matches(At(d, TransactionDir), Some(plan.transaction))
  {
    assert At(d, TransactionDir) == Expected(plan, initial, v, TransactionDir);
  }

  /** What a resume that starts at item `k` comes to. */
  ghost predicate ResumeEnds(plan: Plan, initial: Disk, k: nat, v: View, s: State, budget: nat, e: Ending)
    requires s.journal.Some?
  {
    && Inv(plan, initial, e.state)
    && (v.provenance != Removed ==> Traced(plan, e.state))
    && (v.provenance == Removed ==> Stripped(e.state.disk))
    && (Intact(v) ==> (e.outcome == Finished || e.outcome == Crashed) && IntactState(plan, initial, e.state))
    && (Intact(v) && budget >= 3 * (Tail(plan) + 9 - k) ==> e.outcome == Finished)
    && (e.outcome == Finished ==>
          && Intact(v)
          && Depicts(plan, initial, MigratedView(plan), e.state.disk) && !e.state.marker
          && e.state.journal.Some? && e.state.journal.value.committed
          && (k <= Tail(plan) + 5 && v.provenance == Staging ==>
                e.state.journal == Some(CompletedJournal(Done(Resume, ProvenancePoint))))
          && (Delivered(v) || k == Tail(plan) + 6 ==> e.state.journal == Some(CompletedJournal(s.journal.value.step))))
  }

  /** From item `k` on, a resume finishes unless it is killed, if and only if nothing was taken away. */
  lemma {:induction false} ResumeRuns(plan: Plan, initial: Disk, items: seq<Item>, k: nat, v: View, s: State, budget: nat)
    requires IsResume(items, plan) && k <= Tail(plan) + 6 && ResumeReady(plan, initial, k, v, s)
    ensures ResumeEnds(plan, initial, k, v, s, budget, RunFrom(items, k, Some(Resume), s, budget))
    decreases Tail(plan) + 6 - k
  {
    hide RunItem, ResumeAt, Consistent, Inv, WellFormed, Stripped;
    if k == Tail(plan) + 6 {
      ResumedView(plan, v);
      assert items[k..] == [Commit(Complete), DropMarker, DropTransaction(plan.transaction)];
      ResumeCommits(plan, initial, items, v, s, budget);
    } else {
      var v' := ResumesItem(plan, initial, items, k, v, s, budget);
      var r := RunItem(items[k], Some(Resume), s, budget);
      if r.outcome == Running {
        ResumeRuns(plan, initial, items, k + 1, v', r.state, r.budget);
      }
    }
  }

  /** The first change of a resume, like every later one, is a journal record signed `resume`. */
  lemma {:induction false} ResumeSigns(plan: Plan, items: seq<Item>, k: nat, s0: State, s: State, budget: nat)
    requires IsResume(items, plan) && k <= |items|
    requires s == s0 || (s.journal.Some? && s.journal.value.action == Some(Resume))
    requires k > 3 ==> s.journal.Some? && s.journal.value.action == Some(Resume)
    ensures var e := RunFrom(items, k, Some(Resume), s, budget);
      e.state == s0 || (e.state.journal.Some? && e.state.journal.value.action == Some(Resume))
    decreases |items| - k
  {
    hide Exec, Test, Located;
    if k < |items| {
      var r := RunItem(items[k], Some(Resume), s, budget);
      if r.outcome == Running { ResumeSigns(plan, items, k + 1, s0, r.state, r.budget); }
    }
  }
}
