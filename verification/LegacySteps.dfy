/** How a single step of a recovery, cut anywhere, relates to the view of the disk. */
module LegacySteps {
  import opened Options
  import opened LegacyModel
  import opened LegacyProgram
  import opened LegacyInvariant

  /** A step that is not refused, is cut only by a budget below three, and spends at most three. */
  predicate Progresses(r: Progress, budget: nat) {
    && (r.outcome == Running || r.outcome == Crashed)
    && (r.outcome == Crashed ==> budget < 3)
    && budget <= r.budget + 3
  }

  ghost predicate Active(plan: Plan, initial: Disk, v: View, s: State) {
    Consistent(plan, initial, v, s) && s.journal.Some? && !s.journal.value.committed
  }

  /** Unless the transaction has committed, a recovery would find the provenance accounted for. */
  ghost predicate Traced(plan: Plan, s: State) {
    s.journal.Some? && !s.journal.value.committed ==> ProvenanceAccounted(plan, s)
  }

  lemma AccountedInView(plan: Plan, initial: Disk, v: View, s: State)
    requires Consistent(plan, initial, v, s) && s.journal.Some?
    ensures ProvenanceAccounted(plan, s)
        <==> v.provenance != Removed
             || (s.journal.value.action == Some(Rollback) && IsProvenanceStep(s.journal.value.step, Rollback))
  {
    assert At(s.disk, ProvenanceStage) == Expected(plan, initial, v, ProvenanceStage);
    assert At(s.disk, ProvenanceDir) == Expected(plan, initial, v, ProvenanceDir);
  }

  lemma ProvenanceReads(plan: Plan, initial: Disk, v: View, d: Disk)
    requires Depicts(plan, initial, v, d)
    ensures ProvenanceStage in d <==> v.provenance == Staging
    ensures ProvenanceDir in d <==> v.provenance == Published
  {
    assert At(d, ProvenanceStage) == Expected(plan, initial, v, ProvenanceStage);
    assert At(d, ProvenanceDir) == Expected(plan, initial, v, ProvenanceDir);
  }

  /** The journal after a guarded step that ran, or did not have to. */
  function JournalAfter(s: State, fired: bool, action: Action, point: Point): Option<Journal> {
    if fired then Some(Journal(Recovering, Some(action), Done(action, point), false)) else s.journal
  }

  /** A journaled step keeps the invariant at each of its crash points, whether or not it is refused. */
  lemma GuardedKeeps(plan: Plan, initial: Disk, item: Item, action: Action, s: State, budget: nat, v: View, v': View)
    requires item.Guarded? && Active(plan, initial, v, s)
    requires Test(item.guard, s.disk) ==>
               && Exec(item.op, s.disk).Some? && Depicts(plan, initial, v', Exec(item.op, s.disk).value) && ViewOk(v')
               && (action == Rollback && item.point == ProvenancePoint ==> Withdrawn(v) && Withdrawn(v'))
    requires !Test(item.guard, s.disk) ==> v' == v
    ensures var r := RunItem(item, Some(action), s, budget);
      && Inv(plan, initial, r.state)
      && (Consistent(plan, initial, v, r.state) || Consistent(plan, initial, v', r.state))
      && (Test(item.guard, s.disk) || Test(item.otherwise, s.disk) ==> Progresses(r, budget))
      && (!Test(item.guard, s.disk) && !Test(item.otherwise, s.disk) ==> r.outcome == Refused)
      && (!Test(item.guard, s.disk) ==> r.state == s)
      && ((v.provenance != Removed && v'.provenance != Removed) || (action == Rollback && item.point == ProvenancePoint) ==>
            Traced(plan, r.state) || r.state == s)
      && (r.outcome == Running ==>
            && Active(plan, initial, v', r.state)
            && r.state.marker == s.marker
            && r.state.journal == JournalAfter(s, Test(item.guard, s.disk), action, item.point))
  {
    if Test(item.guard, s.disk) {
      var d' := Exec(item.op, s.disk).value;
      var p, q := Pending(action, item.point), Done(action, item.point);
      AccountedInView(plan, initial, v, Checkpoint(s, action, p));
      AccountedInView(plan, initial, v', Checkpoint(s, action, p).(disk := d'));
      AccountedInView(plan, initial, v', Checkpoint(s.(disk := d'), action, q));
      var j := Some(Journal(Recovering, Some(action), Pending(action, item.point), false));
      assert Consistent(plan, initial, v, s.(journal := j));
      assert Consistent(plan, initial, v', s.(journal := j).(disk := d'));
      assert Consistent(plan, initial, v', Checkpoint(s.(disk := d'), action, Done(action, item.point)));
    }
    assert Consistent(plan, initial, v, s);
  }

  lemma LocatedInView(plan: Plan, initial: Disk, v: View, d: Disk, a: Authority)
    requires Depicts(plan, initial, v, d)
    ensures Located(d, a, plan.Of(a).tree) && SideOf(d, a) == v.Of(a).side
    ensures Tree(a, LegacySide) in d <==> v.Of(a).side == LegacySide
    ensures Tree(a, GenerationSide) in d <==> v.Of(a).side == GenerationSide
  {
    assert At(d, Tree(a, LegacySide)) == Expected(plan, initial, v, Tree(a, LegacySide));
    assert At(d, Tree(a, GenerationSide)) == Expected(plan, initial, v, Tree(a, GenerationSide));
  }

  /** A phase record written by a recovery keeps the invariant: it only replaces phase and action. */
  lemma MarkKeeps(plan: Plan, initial: Disk, phase: Phase, action: Action, s: State, budget: nat, v: View)
    requires Active(plan, initial, v, s) && action == Resume
    ensures var r := RunItem(Mark(phase), Some(action), s, budget);
      && Inv(plan, initial, r.state) && Progresses(r, budget)
      && Consistent(plan, initial, v, r.state)
      && (v.provenance != Removed ==> Traced(plan, r.state))
      && (r.outcome == Running ==>
            && Active(plan, initial, v, r.state)
            && r.state.journal.value.step == s.journal.value.step && r.state.marker == s.marker)
  {
    assert Consistent(plan, initial, v, s);
    var s1 := s.(journal := Some(Written(s.journal, Some(action), phase, false)));
    assert Consistent(plan, initial, v, s1);
    AccountedInView(plan, initial, v, s);
    AccountedInView(plan, initial, v, s1);
  }
}
