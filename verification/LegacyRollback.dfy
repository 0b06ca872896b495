/** Rollback, item by item: it keeps the invariant, is never refused half way, and undoes everything. */
module LegacyRollback {
  import opened Options
  import opened LegacyModel
  import opened LegacyProgram
  import opened LegacyInvariant
  import opened LegacySteps

  // --------------------------------------------------- the rollback program

  function Base(plan: Plan): nat {
    1 + |plan.issuers| + |plan.quarantine|
  }

  /** What the first `k` items of a rollback that started on `origin` have achieved. */
  ghost predicate RollbackAt(plan: Plan, k: nat, origin: Disk, v: View) {
    var n, b := |plan.issuers|, Base(plan);
    && |v.issuers| == n && |v.quarantined| == |plan.quarantine|
    && (k > 0 ==> v.active != Published)
    && (forall i :: 0 <= i < n && i + 1 < k ==> v.issuers[i] != Published)
    && (forall i :: 0 <= i < |plan.quarantine| && i + n + 1 < k ==> !v.quarantined[i])
    && (k > b ==> v.root.config != New)
    && (k > b + 1 ==> v.intermediate.config != New)
    && (k <= b + 3 ==> v.intermediate.side == SideOf(origin, Intermediate))
    && (k > b + 3 ==> v.intermediate.side == LegacySide)
    && (k <= b + 5 ==> v.root.side == SideOf(origin, Root))
    && (k > b + 5 ==> v.root.side == LegacySide)
    && (k > b + 6 ==> v.root.abandoned)
    && (k > b + 7 ==> v.intermediate.abandoned)
    && (k > b + 8 ==> v.session != Published)
    && (k <= b + 9 ==> (v.provenance == Staging <==> ProvenanceStage in origin))
    && (k > b + 9 ==> v.provenance == Removed)
  }

  /** What stands where in the list of items. */
  predicate IsRollback(items: seq<Item>, plan: Plan, origin: Disk) {
    var n, b := |plan.issuers|, Base(plan);
    && |items| == b + 12
    && items[0] == RollbackActive(plan)
    && (forall i :: 0 <= i < n ==> items[1 + i] == RollbackIssuer(plan.issuers[i]))
    && (forall i :: 0 <= i < |plan.quarantine| ==> items[1 + n + i] == RollbackQuarantine(plan.quarantine[i]))
    && items[b] == RollbackConfig(plan, Root, SideOf(origin, Root))
    && items[b + 1] == RollbackConfig(plan, Intermediate, SideOf(origin, Intermediate))
    && items[b + 2] == Locate(Intermediate, plan.intermediate.tree)
    && items[b + 3] == RollbackRename(plan, Intermediate)
    && items[b + 4] == Locate(Root, plan.root.tree)
    && items[b + 5] == RollbackRename(plan, Root)
    && items[b + 6] == RollbackReservation(plan, Root)
    && items[b + 7] == RollbackReservation(plan, Intermediate)
    && items[b + 8] == RollbackSession(plan)
    && items[b + 9] == RollbackProvenance(plan, origin)
    && items[b + 10] == Commit(RolledBack)
    && items[b + 11] == DropMarker
  }

  lemma RollbackItems(plan: Plan, origin: Disk)
    ensures IsRollback(Items(plan, Recover(Rollback), origin), plan, origin)
  {
    hide SideOf, RollbackActive, RollbackIssuer, RollbackQuarantine, RollbackConfig, RollbackRename, RollbackReservation,
      RollbackSession, RollbackProvenance, RollbackTail;
    var items, b, tail := Items(plan, Recover(Rollback), origin), Base(plan), RollbackTail(plan, origin);
    RollbackTailItems(plan, origin);
    assert items == items[..b] + tail;
    forall i | 0 <= i < 12 ensures items[b + i] == tail[i] { }
  }

  lemma RollbackTailItems(plan: Plan, origin: Disk)
    ensures var h := RollbackTail(plan, origin);
      && |h| == 12
      && h[0] == RollbackConfig(plan, Root, SideOf(origin, Root))
      && h[1] == RollbackConfig(plan, Intermediate, SideOf(origin, Intermediate))
      && h[2] == Locate(Intermediate, plan.intermediate.tree) && h[3] == RollbackRename(plan, Intermediate)
      && h[4] == Locate(Root, plan.root.tree) && h[5] == RollbackRename(plan, Root)
      && h[6] == RollbackReservation(plan, Root) && h[7] == RollbackReservation(plan, Intermediate)
      && h[8] == RollbackSession(plan) && h[9] == RollbackProvenance(plan, origin)
      && h[10] == Commit(RolledBack) && h[11] == DropMarker
  {
  }

  /** The state of the machine before item `k`. */
  ghost predicate RollbackReady(plan: Plan, initial: Disk, origin: Disk, k: nat, v: View, s: State) {
    WellFormed(plan) && Active(plan, initial, v, s) && RollbackAt(plan, k, origin, v)
  }

  /** One item: safe wherever it is cut; idle when the migration is already withdrawn. */
  ghost predicate RollbackStep(plan: Plan, initial: Disk, origin: Disk, k: nat, v: View, v': View,
                               s: State, budget: nat, item: Item) {
    var r := RunItem(item, Some(Rollback), s, budget);
    && Progresses(r, budget) && Inv(plan, initial, r.state)
    && (Traced(plan, s) ==> Traced(plan, r.state))
    && (r.outcome == Running ==>
          && RollbackReady(plan, initial, origin, k + 1, v', r.state)
          && (Withdrawn(v) && v.provenance == Removed ==> v' == v && r.state.journal == s.journal)
          && (v.provenance != Removed ==>
                if k == Base(plan) + 9 then r.state.journal.value.step == Done(Rollback, ProvenancePoint)
                else v'.provenance == v.provenance))
  }

  /** A guarded item of a rollback is safe when its operation leads from one view to the next. */
  lemma RollbackStepHolds(plan: Plan, initial: Disk, origin: Disk, k: nat, v: View, v': View,
                          s: State, budget: nat, item: Item)
    requires RollbackReady(plan, initial, origin, k, v, s)
    requires item.Guarded? && item.otherwise == Always
    requires item.point == ProvenancePoint <==> k == Base(plan) + 9
    requires Test(item.guard, s.disk) ==> Exec(item.op, s.disk).Some? && Depicts(plan, initial, v', Exec(item.op, s.disk).value)
    requires !Test(item.guard, s.disk) ==> v' == v
    requires Withdrawn(v) && v.provenance == Removed ==> !Test(item.guard, s.disk)
    requires ViewOk(v') && RollbackAt(plan, k + 1, origin, v')
    requires if k == Base(plan) + 9 then Withdrawn(v) && Withdrawn(v') && (Test(item.guard, s.disk) <==> v.provenance != Removed)
             else v'.provenance == v.provenance
    ensures RollbackStep(plan, initial, origin, k, v, v', s, budget, item)
  {
    hide RunItem, RollbackAt, Exec, Depicts, WellFormed;
    GuardedKeeps(plan, initial, item, Rollback, s, budget, v, v');
    AccountedInView(plan, initial, v, s);
  }

  lemma RollsBackActive(plan: Plan, initial: Disk, origin: Disk, v: View, s: State, budget: nat) returns (v': View)
    requires RollbackReady(plan, initial, origin, 0, v, s)
    ensures RollbackStep(plan, initial, origin, 0, v, v', s, budget, RollbackActive(plan))
  {
    hide RollbackStep, Exec, StagedObject;
    assert At(s.disk, ActiveIssuer) == Expected(plan, initial, v, ActiveIssuer);
    v' := if v.active == Published then v.(active := Removed) else v;
    if v.active == Published { ActiveUnlinks(plan, initial, v, s.disk); }
    RollbackStepHolds(plan, initial, origin, 0, v, v', s, budget, RollbackActive(plan));
  }

  lemma RollsBackIssuer(plan: Plan, initial: Disk, origin: Disk, i: nat, v: View, s: State, budget: nat) returns (v': View)
    requires i < |plan.issuers| && RollbackReady(plan, initial, origin, 1 + i, v, s)
    ensures RollbackStep(plan, initial, origin, 1 + i, v, v', s, budget, RollbackIssuer(plan.issuers[i]))
  {
    hide RollbackStep, Exec, StagedObject;
    var p := Issuer(plan.issuers[i].name);
    IndexOfName(plan.issuers, i);
    assert At(s.disk, p) == Expected(plan, initial, v, p);
    v' := if v.issuers[i] == Published then v.(issuers := v.issuers[i := Removed]) else v;
    if v.issuers[i] == Published { IssuerUnlinks(plan, initial, v, s.disk, i); }
    RollbackStepHolds(plan, initial, origin, 1 + i, v, v', s, budget, RollbackIssuer(plan.issuers[i]));
  }

  lemma RollsBackQuarantine(plan: Plan, initial: Disk, origin: Disk, i: nat, v: View, s: State, budget: nat)
    returns (v': View)
    requires i < |plan.quarantine| && RollbackReady(plan, initial, origin, 1 + |plan.issuers| + i, v, s)
    ensures RollbackStep(plan, initial, origin, 1 + |plan.issuers| + i, v, v', s, budget, RollbackQuarantine(plan.quarantine[i]))
  {
    hide RollbackStep, Exec, Expected;
    var e := plan.quarantine[i];
    ExpectedQuarantine(plan, initial, v, i, v.quarantined[i], Staged(Quarantined(e.name)));
    assert v.quarantined[i := v.quarantined[i]] == v.quarantined;
    assert At(s.disk, Staged(Quarantined(e.name))) == When(v.quarantined[i], e.obj);
    v' := if v.quarantined[i] then v.(quarantined := v.quarantined[i := false]) else v;
    if v.quarantined[i] { QuarantineReturns(plan, initial, v, s.disk, i); }
    RollbackStepHolds(plan, initial, origin, 1 + |plan.issuers| + i, v, v', s, budget, RollbackQuarantine(plan.quarantine[i]));
  }

  lemma RollsBackConfig(plan: Plan, initial: Disk, origin: Disk, a: Authority, v: View, s: State, budget: nat)
    returns (v': View)
    requires RollbackReady(plan, initial, origin, Base(plan) + (if a == Root then 0 else 1), v, s)
    ensures RollbackStep(plan, initial, origin, Base(plan) + (if a == Root then 0 else 1), v, v', s, budget,
                         RollbackConfig(plan, a, SideOf(origin, a)))
  {
    hide RollbackStep, Exec, StagedObject, Expected;
    var side := v.Of(a).side;
    ConfigReads(plan, initial, v, s.disk, a);
    v' := if v.Of(a).config == New then v.With(a, v.Of(a).(config := Restored)) else v;
    if v.Of(a).config == New { ConfigRestores(plan, initial, v, s.disk, a); }
    RollbackStepHolds(plan, initial, origin, Base(plan) + (if a == Root then 0 else 1), v, v', s, budget, RollbackConfig(plan, a, side));
  }

  lemma RollsBackLocate(plan: Plan, initial: Disk, origin: Disk, a: Authority, v: View, s: State, budget: nat)
    requires RollbackReady(plan, initial, origin, Base(plan) + (if a == Root then 4 else 2), v, s)
    ensures RollbackStep(plan, initial, origin, Base(plan) + (if a == Root then 4 else 2), v, v, s, budget,
                         Locate(a, plan.Of(a).tree))
  {
    LocatedInView(plan, initial, v, s.disk, a);
    assert Consistent(plan, initial, v, s);
  }

  lemma RollsBackRename(plan: Plan, initial: Disk, origin: Disk, a: Authority, v: View, s: State, budget: nat)
    returns (v': View)
    requires RollbackReady(plan, initial, origin, Base(plan) + (if a == Root then 5 else 3), v, s)
    ensures RollbackStep(plan, initial, origin, Base(plan) + (if a == Root then 5 else 3), v, v', s, budget,
                         RollbackRename(plan, a))
  {
    hide RollbackStep, Exec, StagedObject;
    LocatedInView(plan, initial, v, s.disk, a);
    v' := v.With(a, v.Of(a).(side := LegacySide));
    if v.Of(a).side == GenerationSide { MovesTree(plan, initial, v, s.disk, a, GenerationSide, LegacySide); }
    RollbackStepHolds(plan, initial, origin, Base(plan) + (if a == Root then 5 else 3), v, v', s, budget, RollbackRename(plan, a));
  }

  lemma RollsBackReservation(plan: Plan, initial: Disk, origin: Disk, a: Authority, v: View, s: State, budget: nat)
    returns (v': View)
    requires RollbackReady(plan, initial, origin, Base(plan) + (if a == Root then 6 else 7), v, s)
    ensures RollbackStep(plan, initial, origin, Base(plan) + (if a == Root then 6 else 7), v, v', s, budget,
                         RollbackReservation(plan, a))
  {
    hide RollbackStep, Exec, StagedObject, Expected;
    ReservationReads(plan, initial, v, s.disk, a);
    v' := v.With(a, v.Of(a).(abandoned := true));
    if !v.Of(a).abandoned { ReservationAbandons(plan, initial, v, s.disk, a); }
    RollbackStepHolds(plan, initial, origin, Base(plan) + (if a == Root then 6 else 7), v, v', s, budget, RollbackReservation(plan, a));
  }

  lemma RollsBackSession(plan: Plan, initial: Disk, origin: Disk, v: View, s: State, budget: nat) returns (v': View)
    requires RollbackReady(plan, initial, origin, Base(plan) + 8, v, s)
    ensures RollbackStep(plan, initial, origin, Base(plan) + 8, v, v', s, budget, RollbackSession(plan))
  {
    hide RollbackStep, Exec, StagedObject;
    assert At(s.disk, BackupSession) == Expected(plan, initial, v, BackupSession);
    v' := if v.session == Published then v.(session := Removed) else v;
    if v.session == Published { SessionUnlinks(plan, initial, v, s.disk); }
    RollbackStepHolds(plan, initial, origin, Base(plan) + 8, v, v', s, budget, RollbackSession(plan));
  }

  lemma RollsBackProvenance(plan: Plan, initial: Disk, origin: Disk, v: View, s: State, budget: nat) returns (v': View)
    requires RollbackReady(plan, initial, origin, Base(plan) + 9, v, s)
    ensures RollbackStep(plan, initial, origin, Base(plan) + 9, v, v', s, budget, RollbackProvenance(plan, origin))
  {
    hide RollbackStep, Exec, StagedObject;
    assert At(s.disk, ProvenanceStage) == Expected(plan, initial, v, ProvenanceStage);
    assert At(s.disk, ProvenanceDir) == Expected(plan, initial, v, ProvenanceDir);
    v' := v.(provenance := Removed);
    if v.provenance != Removed { ProvenanceRemoves(plan, initial, v, s.disk); }
    RollbackStepHolds(plan, initial, origin, Base(plan) + 9, v, v', s, budget, RollbackProvenance(plan, origin));
  }

  lemma RollsBackItem(plan: Plan, initial: Disk, origin: Disk, items: seq<Item>, k: nat, v: View, s: State, budget: nat)
    returns (v': View)
    requires IsRollback(items, plan, origin)
    requires k < Base(plan) + 10 && RollbackReady(plan, initial, origin, k, v, s)
    ensures RollbackStep(plan, initial, origin, k, v, v', s, budget, items[k])
  {
    hide RollbackStep, RollbackAt, Consistent;
    var n, b := |plan.issuers|, Base(plan);
    if k == 0 {
      v' := RollsBackActive(plan, initial, origin, v, s, budget);
    } else if k < 1 + n {
      var i := k - 1;
      assert items[1 + i] == RollbackIssuer(plan.issuers[i]);
      v' := RollsBackIssuer(plan, initial, origin, i, v, s, budget);
    } else if k < b {
      var i := k - 1 - n;
      assert items[1 + n + i] == RollbackQuarantine(plan.quarantine[i]);
      v' := RollsBackQuarantine(plan, initial, origin, i, v, s, budget);
    } else {
      v' := RollsBackTail(plan, initial, origin, items, k - b, v, s, budget);
    }
  }

  lemma RollsBackTail(plan: Plan, initial: Disk, origin: Disk, items: seq<Item>, j: nat, v: View, s: State, budget: nat)
    returns (v': View)
    requires IsRollback(items, plan, origin)
    requires j < 10 && RollbackReady(plan, initial, origin, Base(plan) + j, v, s)
    ensures RollbackStep(plan, initial, origin, Base(plan) + j, v, v', s, budget, items[Base(plan) + j])
  {
    hide RollbackAt, Consistent;
    if j < 2 {
      v' := RollsBackConfig(plan, initial, origin, if j == 0 then Root else Intermediate, v, s, budget);
    } else if j == 2 || j == 4 {
      RollsBackLocate(plan, initial, origin, if j == 2 then Intermediate else Root, v, s, budget);
      v' := v;
    } else if j < 6 {
      v' := RollsBackRename(plan, initial, origin, if j == 3 then Intermediate else Root, v, s, budget);
    } else if j < 8 {
      v' := RollsBackReservation(plan, initial, origin, if j == 6 then Root else Intermediate, v, s, budget);
    } else if j == 8 {
      v' := RollsBackSession(plan, initial, origin, v, s, budget);
    } else {
      v' := RollsBackProvenance(plan, initial, origin, v, s, budget);
    }
  }

  /** The journal record that a finished rollback leaves. */
  function RolledBackJournal(step: Step): Journal {
    Journal(RolledBack, Some(Rollback), step, true)
  }

  /** The last two items: the committing journal write and the marker. */
  lemma RollbackCommits(plan: Plan, initial: Disk, origin: Disk, items: seq<Item>, v: View, s: State, budget: nat)
    requires |items| == Base(plan) + 12 && items[Base(plan) + 10..] == [Commit(RolledBack), DropMarker]
    requires RollbackReady(plan, initial, origin, Base(plan) + 10, v, s)
    ensures var e := RunFrom(items, Base(plan) + 10, Some(Rollback), s, budget);
      && Inv(plan, initial, e.state)
      && (Traced(plan, s) ==> Traced(plan, e.state))
      && e.outcome == (if budget < 2 then Crashed else Finished)
      && (e.outcome == Finished ==>
            && Consistent(plan, initial, v, e.state) && !e.state.marker
            && e.state.journal == Some(RolledBackJournal(s.journal.value.step)))
  {
    hide Depicts;
    var k := Base(plan) + 10;
    assert items[k] == items[k..][0] && items[k + 1] == items[k..][1];
    var s1 := s.(journal := Some(RolledBackJournal(s.journal.value.step)));
    assert Consistent(plan, initial, v, s);
    assert Consistent(plan, initial, v, s1);
    assert Consistent(plan, initial, v, s1.(marker := false));
    assert RunFrom(items, k, Some(Rollback), s, budget)
        == if budget == 0 then Ending(s, Crashed) else RunFrom(items, k + 1, Some(Rollback), s1, budget - 1);
    if budget > 0 {
      assert RunFrom(items, k + 1, Some(Rollback), s1, budget - 1)
          == if budget == 1 then Ending(s1, Crashed)
             else RunFrom(items, k + 2, Some(Rollback), s1.(marker := false), budget - 2);
    }
  }

  /** What a rollback that starts at item `k` comes to. */
  ghost predicate RollbackEnds(plan: Plan, initial: Disk, k: nat, v: View, w: View, s: State, budget: nat, e: Ending)
    requires s.journal.Some?
  {
    && Inv(plan, initial, e.state)
    && (Traced(plan, s) ==> Traced(plan, e.state))
    && (e.outcome == Finished || e.outcome == Crashed)
    && (budget >= 3 * (Base(plan) + 12 - k) ==> e.outcome == Finished)
    && (e.outcome == Finished ==>
          && Consistent(plan, initial, w, e.state) && !e.state.marker
          && e.state.journal == Some(RolledBackJournal(
               if k <= Base(plan) + 9 && v.provenance != Removed then Done(Rollback, ProvenancePoint) else s.journal.value.step)))
  }

  /** From item `k` on, a rollback is never refused, and only a kill keeps it from finishing. */
  lemma {:induction false} RollbackRuns(plan: Plan, initial: Disk, origin: Disk, items: seq<Item>, k: nat,
                                        v: View, s: State, budget: nat)
    returns (w: View)
    requires IsRollback(items, plan, origin)
    requires k <= Base(plan) + 10 && RollbackReady(plan, initial, origin, k, v, s)
    requires v.provenance == Removed && k <= Base(plan) + 9 ==> Withdrawn(v)
    ensures RollbackEnds(plan, initial, k, v, w, s, budget, RunFrom(items, k, Some(Rollback), s, budget))
    decreases Base(plan) + 10 - k
  {
    hide RunItem, RollbackAt, Consistent, Inv, WellFormed;
    w := v;
    if k == Base(plan) + 10 {
      assert items[k..] == [Commit(RolledBack), DropMarker];
      RollbackCommits(plan, initial, origin, items, v, s, budget);
    } else {
      var v' := RollsBackItem(plan, initial, origin, items, k, v, s, budget);
      var r := RunItem(items[k], Some(Rollback), s, budget);
      if r.outcome == Running {
        w := RollbackRuns(plan, initial, origin, items, k + 1, v', r.state, r.budget);
      }
    }
  }
}
