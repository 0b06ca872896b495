/**
 Recovery converges.

 From every state that any interleaving of killed, refused and resumed commands can leave
 behind, one uninterrupted rollback undoes the migration, and one uninterrupted resume completes
 it, each under a condition that can be read off the disk and the journal before starting. Both
 conditions are exact.
*/
module LegacyConvergence {
  import opened Options
  import opened LegacyModel
  import opened LegacyProgram
  import opened LegacyInvariant
  import opened LegacySteps
  import opened LegacyRollback
  import opened LegacyResume
  import opened LegacyForward

  // -------------------------------------------------- preflight on a view

  lemma AuthorityPreflight(plan: Plan, initial: Disk, v: View, d: Disk, a: Authority)
    requires WellFormed(plan) && Depicts(plan, initial, v, d) && v.transaction
    ensures JournaledAuthority(plan, d, a)
    ensures Matches(At(d, Config(a, SideOf(d, a))), Some(plan.Of(a).configPublished)) ==>
              Matches(At(d, Staged(ConfigRollback(a))), Some(plan.Of(a).configRollback))
    ensures !Matches(At(d, Reservation(a)), Some(plan.Of(a).abandoned)) ==>
              Matches(At(d, Staged(AbandonedPublish(a))), Some(plan.Of(a).abandoned))
    ensures ResumeStagedAuthority(plan, d, a) <==> !(v.Of(a).abandoned && v.Of(a).reservation == WasConsumed)
  {
    var p, x := plan.Of(a), v.Of(a);
    LocatedInView(plan, initial, v, d, a);
    ReservationReads(plan, initial, v, d, a);
    ConfigReads(plan, initial, v, d, a);
    var c, r := At(d, Config(a, SideOf(d, a))), At(d, Reservation(a));
    assert MatchesAny(c, [Some(p.configOriginal), Some(p.configPublished), Some(p.configRollback)]) by {
      var expected := [Some(p.configOriginal), Some(p.configPublished), Some(p.configRollback)];
      assert Matches(c, expected[0]) || Matches(c, expected[1]) || Matches(c, expected[2]);
    }
    assert MatchesAny(r, [p.reservationOriginal, Some(p.reserved), Some(p.consumed), Some(p.abandoned)]) by {
      var expected := [p.reservationOriginal, Some(p.reserved), Some(p.consumed), Some(p.abandoned)];
      assert Matches(r, expected[0]) || Matches(r, expected[1]) || Matches(r, expected[2]) || Matches(r, expected[3]);
    }
    StagedReservations(plan, initial, v, d, a);
  }

  lemma StagedReservations(plan: Plan, initial: Disk, v: View, d: Disk, a: Authority)
    requires Depicts(plan, initial, v, d) && v.transaction
    ensures At(d, Staged(ConfigRollback(a))) == When(v.Of(a).config != Restored, plan.Of(a).configRollback)
    ensures At(d, Staged(ConfigNew(a))) == When(v.Of(a).config == Original, plan.Of(a).configPublished)
    ensures At(d, Staged(AbandonedPublish(a))) == When(!v.Of(a).abandoned, plan.Of(a).abandoned)
    ensures At(d, Staged(ReservedPublish(a))) == When(v.Of(a).reservation == NotReserved, plan.Of(a).reserved)
    ensures At(d, Staged(ConsumedPublish(a))) == When(v.Of(a).reservation != WasConsumed, plan.Of(a).consumed)
  {
  }

  /** Where an uncommitted transaction stands, every check but the one on provenance passes for a rollback. */
  lemma RollbackPreflight(plan: Plan, initial: Disk, v: View, s: State)
    requires WellFormed(plan) && Active(plan, initial, v, s)
    ensures Preflight(plan, s, Rollback) <==> ProvenanceAccounted(plan, s)
  {
    CellsJournaled(plan, initial, v, s.disk);
    forall a { AuthorityPreflight(plan, initial, v, s.disk, a); }
  }

  lemma CellsJournaled(plan: Plan, initial: Disk, v: View, d: Disk)
    requires WellFormed(plan) && Depicts(plan, initial, v, d) && v.transaction
    ensures Journaled(plan, d)
  {
    forall a ensures JournaledAuthority(plan, d, a) { AuthorityPreflight(plan, initial, v, d, a); }
    SlotJournaled(plan, initial, v, d);
    forall i | 0 <= i < |plan.issuers|
      ensures MatchesAny(At(d, Issuer(plan.issuers[i].name)), [None, Some(plan.issuers[i].obj)])
    {
      IssuerReads(plan, initial, v, d, i);
      var expected := [None, Some(plan.issuers[i].obj)];
      assert Matches(At(d, Issuer(plan.issuers[i].name)), expected[if v.issuers[i] == Published then 1 else 0]);
    }
    forall i | 0 <= i < |plan.quarantine| ensures JournaledQuarantine(plan.quarantine[i], d) {
      QuarantineReads(plan, initial, v, d, i);
    }
  }

  lemma SlotJournaled(plan: Plan, initial: Disk, v: View, d: Disk)
    requires Depicts(plan, initial, v, d) && v.transaction
    ensures Matches(At(d, TransactionDir), Some(plan.transaction))
    ensures MatchesAny(At(d, BackupSession), [None, Some(plan.session)])
    ensures MatchesAny(At(d, ActiveIssuer), [None, Some(plan.active)])
  {
    TransactionThere(plan, initial, v, d);
    var x, y := [None, Some(plan.session)], [None, Some(plan.active)];
    assert At(d, BackupSession) == Expected(plan, initial, v, BackupSession);
    assert At(d, ActiveIssuer) == Expected(plan, initial, v, ActiveIssuer);
    assert Matches(At(d, BackupSession), x[if v.session == Published then 1 else 0]);
    assert Matches(At(d, ActiveIssuer), y[if v.active == Published then 1 else 0]);
  }

  lemma IssuerReads(plan: Plan, initial: Disk, v: View, d: Disk, i: nat)
    requires WellFormed(plan) && Depicts(plan, initial, v, d) && i < |plan.issuers|
    ensures var e := plan.issuers[i];
      && At(d, Issuer(e.name)) == When(v.issuers[i] == Published, e.obj)
      && At(d, Staged(IssuerStage(e.name))) == When(v.transaction && v.issuers[i] == Staging, e.obj)
  {
    var e := plan.issuers[i];
    ExpectedIssuer(plan, initial, v, i, v.issuers[i], Issuer(e.name));
    ExpectedIssuer(plan, initial, v, i, v.issuers[i], Staged(IssuerStage(e.name)));
    assert v.issuers[i := v.issuers[i]] == v.issuers;
  }

  lemma QuarantineReads(plan: Plan, initial: Disk, v: View, d: Disk, i: nat)
    requires WellFormed(plan) && Depicts(plan, initial, v, d) && i < |plan.quarantine|
    ensures var e := plan.quarantine[i];
      && At(d, Scaffold(e.name)) == When(!v.quarantined[i], e.obj)
      && At(d, Staged(Quarantined(e.name))) == When(v.transaction && v.quarantined[i], e.obj)
  {
    var e := plan.quarantine[i];
    ExpectedQuarantine(plan, initial, v, i, v.quarantined[i], Scaffold(e.name));
    ExpectedQuarantine(plan, initial, v, i, v.quarantined[i], Staged(Quarantined(e.name)));
    assert v.quarantined[i := v.quarantined[i]] == v.quarantined;
  }

  /** The checks of a resume, exactly: they do not rule out a restored configuration or an abandoned reservation. */
  lemma ResumePreflight(plan: Plan, initial: Disk, v: View, s: State)
    requires WellFormed(plan) && Active(plan, initial, v, s)
    ensures Preflight(plan, s, Resume)
        <==> && ProvenanceAccounted(plan, s) && Stocked(v)
             && !(v.root.abandoned && v.root.reservation == WasConsumed)
             && !(v.intermediate.abandoned && v.intermediate.reservation == WasConsumed)
    ensures Intact(v) ==> Preflight(plan, s, Resume)
  {
    hide Depicts, Expected, Journaled, ResumeStaged;
    CellsJournaled(plan, initial, v, s.disk);
    AccountedInView(plan, initial, v, s);
    ResumeStagedInView(plan, initial, v, s.disk);
  }

  lemma ResumeStagedInView(plan: Plan, initial: Disk, v: View, d: Disk)
    requires WellFormed(plan) && Depicts(plan, initial, v, d) && v.transaction
    ensures ResumeStaged(plan, d)
        <==> && Stocked(v)
             && !(v.root.abandoned && v.root.reservation == WasConsumed)
             && !(v.intermediate.abandoned && v.intermediate.reservation == WasConsumed)
  {
    hide Depicts, Expected, ResumeStagedAuthority;
    DepictedLengths(plan, initial, v, d);
    SlotsStaged(plan, initial, v, d);
    forall i | 0 <= i < |plan.issuers|
      ensures v.issuers[i] == Removed <==>
                Matches(At(d, Issuer(plan.issuers[i].name)), None)
                && !Matches(At(d, Staged(IssuerStage(plan.issuers[i].name))), Some(plan.issuers[i].obj))
    {
      IssuerReads(plan, initial, v, d, i);
    }
    forall a
      ensures ResumeStagedAuthority(plan, d, a) <==> !(v.Of(a).abandoned && v.Of(a).reservation == WasConsumed)
    {
      AuthorityPreflight(plan, initial, v, d, a);
    }
    assert v.Of(Root) == v.root && v.Of(Intermediate) == v.intermediate;
  }

  lemma DepictedLengths(plan: Plan, initial: Disk, v: View, d: Disk)
    requires Depicts(plan, initial, v, d)
    ensures |v.issuers| == |plan.issuers| && |v.quarantined| == |plan.quarantine|
  {
  }

  lemma SlotsStaged(plan: Plan, initial: Disk, v: View, d: Disk)
    requires Depicts(plan, initial, v, d) && v.transaction
    ensures Matches(At(d, BackupSession), None) <==> v.session != Published
    ensures Matches(At(d, Staged(SessionPublish)), Some(plan.session)) <==> v.session == Staging
    ensures Matches(At(d, ActiveIssuer), None) <==> v.active != Published
    ensures Matches(At(d, Staged(ActivePublish)), Some(plan.active)) <==> v.active == Staging
  {
    assert At(d, BackupSession) == Expected(plan, initial, v, BackupSession);
    assert At(d, Staged(SessionPublish)) == Expected(plan, initial, v, Staged(SessionPublish));
    assert At(d, ActiveIssuer) == Expected(plan, initial, v, ActiveIssuer);
    assert At(d, Staged(ActivePublish)) == Expected(plan, initial, v, Staged(ActivePublish));
  }

  // ------------------------------------------------------- what they reach

  /** Names outside the transaction keep their occupants. */
  ghost predicate Untouched(plan: Plan, initial: Disk, d: Disk) {
    && (forall path :: At(d, Elsewhere(path)) == At(initial, Elsewhere(path)))
    && (forall service :: (forall i :: 0 <= i < |plan.issuers| ==> plan.issuers[i].name != service) ==>
          At(d, Issuer(service)) == At(initial, Issuer(service)))
    && (forall basename :: (forall i :: 0 <= i < |plan.quarantine| ==> plan.quarantine[i].name != basename) ==>
          At(d, Scaffold(basename)) == At(initial, Scaffold(basename)))
  }

  lemma DepictedUntouched(plan: Plan, initial: Disk, v: View, d: Disk)
    requires Depicts(plan, initial, v, d)
    ensures Untouched(plan, initial, d)
  {
  }

  /** The whole authority tree is at `side`, nothing of it at the other one, every member as it was. */
  ghost predicate TreeAt(plan: Plan, a: Authority, side: Side, initial: Disk, d: Disk) {
    && At(d, Tree(a, side)) == Some(plan.Of(a).tree)
    && (forall p :: p in d && (p.Tree? || p.Member?) && p.a == a ==> p.side == side)
    && (forall name :: name != CONFIG ==> At(d, Member(a, side, name)) == At(initial, Member(a, LegacySide, name)))
  }

  lemma DepictedTree(plan: Plan, initial: Disk, v: View, d: Disk, a: Authority)
    requires Depicts(plan, initial, v, d)
    ensures TreeAt(plan, a, v.Of(a).side, initial, d)
  {
    var side := v.Of(a).side;
    assert At(d, Tree(a, side)) == Expected(plan, initial, v, Tree(a, side));
    forall p | p in d && (p.Tree? || p.Member?) && p.a == a ensures p.side == side { assert At(d, p).Some?; }
    forall name | name != CONFIG
      ensures At(d, Member(a, side, name)) == At(initial, Member(a, LegacySide, name))
    {
      assert At(d, Member(a, side, name)) == Expected(plan, initial, v, Member(a, side, name));
    }
  }

  /** `_adopt_reservation`: a fresh migration accepts an absent reservation or its own abandoned one. */
  predicate Adoptable(d: Disk, a: Authority, p: AuthorityPlan) {
    match At(d, Reservation(a))
    case None => true
    case Some(o) => o.content == ReservationRecord(p.generation, p.kind, AbandonedStatus, p.fingerprint, p.source)
  }

  ghost predicate AuthorityUndone(plan: Plan, a: Authority, initial: Disk, d: Disk) {
    && TreeAt(plan, a, LegacySide, initial, d)
    && Config(a, LegacySide) in d && d[Config(a, LegacySide)].content == plan.Of(a).configOriginal.content
    && At(d, Reservation(a)) == Some(plan.Of(a).abandoned)
    && Adoptable(d, a, plan.Of(a))
  }

  /** Everything that a rollback promises. */
  ghost predicate Undone(plan: Plan, initial: Disk, d: Disk) {
    && ActiveIssuer !in d && BackupSession !in d && ProvenanceStage !in d && ProvenanceDir !in d
    && AuthorityUndone(plan, Root, initial, d) && AuthorityUndone(plan, Intermediate, initial, d)
    && (forall i :: 0 <= i < |plan.issuers| ==> Issuer(plan.issuers[i].name) !in d)
    && (forall i :: 0 <= i < |plan.quarantine| ==> At(d, Scaffold(plan.quarantine[i].name)) == Some(plan.quarantine[i].obj))
    && Untouched(plan, initial, d)
  }

  lemma WithdrawnAuthority(plan: Plan, initial: Disk, v: View, d: Disk, a: Authority)
    requires WellFormed(plan) && Depicts(plan, initial, v, d) && AuthorityWithdrawn(v.Of(a))
    ensures AuthorityUndone(plan, a, initial, d)
  {
    DepictedTree(plan, initial, v, d, a);
    assert WellFormedAuthority(plan.Of(a));
    assert At(d, Config(a, LegacySide)) == Expected(plan, initial, v, Config(a, LegacySide));
    assert At(d, Reservation(a)) == Expected(plan, initial, v, Reservation(a));
  }

  lemma WithdrawnIsUndone(plan: Plan, initial: Disk, v: View, d: Disk)
    requires WellFormed(plan) && Depicts(plan, initial, v, d) && Withdrawn(v) && v.provenance == Removed
    ensures Undone(plan, initial, d)
  {
    WithdrawnAuthority(plan, initial, v, d, Root);
    WithdrawnAuthority(plan, initial, v, d, Intermediate);
    assert forall p :: p in {ActiveIssuer, BackupSession, ProvenanceStage, ProvenanceDir} ==>
                         At(d, p) == Expected(plan, initial, v, p);
    forall i | 0 <= i < |plan.issuers| ensures Issuer(plan.issuers[i].name) !in d { IssuerReads(plan, initial, v, d, i); }
    forall i | 0 <= i < |plan.quarantine|
      ensures At(d, Scaffold(plan.quarantine[i].name)) == Some(plan.quarantine[i].obj)
    {
      QuarantineReads(plan, initial, v, d, i);
    }
    DepictedUntouched(plan, initial, v, d);
  }

  // ------------------------------------------------------ the two theorems

  function RollbackCost(plan: Plan): nat {
    3 * (Base(plan) + 12)
  }

  function ResumeCost(plan: Plan): nat {
    3 * (Tail(plan) + 9)
  }

  /**
   An uninterrupted rollback undoes the migration if and only if the provenance is accounted for.
   Otherwise it is refused before it changes anything.
  */
  lemma RollbackConverges(plan: Plan, initial: Disk, s: State, budget: nat)
    requires WellFormed(plan) && Inv(plan, initial, s) && s.journal.Some? && !s.journal.value.committed
    ensures var e := RunRecover(plan, Rollback, s, budget);
      && Inv(plan, initial, e.state) && (Traced(plan, s) ==> Traced(plan, e.state))
      && (!ProvenanceAccounted(plan, s) <==> e.outcome == Refused)
      && (e.outcome == Refused ==> e.state == s)
      && (ProvenanceAccounted(plan, s) && budget >= RollbackCost(plan) ==> e.outcome == Finished)
      && (e.outcome == Finished ==>
            && Undone(plan, initial, e.state.disk) && !e.state.marker
            && e.state.journal == Some(RolledBackJournal(
                 if ProvenanceStage in s.disk || ProvenanceDir in s.disk
                 then Done(Rollback, ProvenancePoint) else s.journal.value.step)))
  {
    hide Expected, WellFormed, Withdrawn, RunFrom, Items, IsRollback, Undone;
    var v :| Consistent(plan, initial, v, s);
    var e := RunRecover(plan, Rollback, s, budget);
    RollbackPreflight(plan, initial, v, s);
    AccountedInView(plan, initial, v, s);
    ProvenanceReads(plan, initial, v, s.disk);
    if ProvenanceAccounted(plan, s) {
      RollbackItems(plan, s.disk);
      RollbackStart(plan, initial, v, s);
      var w := RollbackRuns(plan, initial, s.disk, Items(plan, Recover(Rollback), s.disk), 0, v, s, budget);
      if e.outcome == Finished { WithdrawnIsUndone(plan, initial, w, e.state.disk); }
    }
  }

  lemma RollbackStart(plan: Plan, initial: Disk, v: View, s: State)
    requires WellFormed(plan) && Active(plan, initial, v, s)
    ensures RollbackReady(plan, initial, s.disk, 0, v, s)
  {
    LocatedInView(plan, initial, v, s.disk, Root);
    LocatedInView(plan, initial, v, s.disk, Intermediate);
    ProvenanceReads(plan, initial, v, s.disk);
  }

  /** Readable off the disk: everything is still staged or published, and nothing was abandoned or restored. */
  ghost predicate NothingWithdrawn(plan: Plan, d: Disk) {
    && (BackupSession in d || Staged(SessionPublish) in d)
    && (ActiveIssuer in d || Staged(ActivePublish) in d)
    && (ProvenanceDir in d || ProvenanceStage in d)
    && (forall i :: 0 <= i < |plan.issuers| ==>
          Issuer(plan.issuers[i].name) in d || Staged(IssuerStage(plan.issuers[i].name)) in d)
    && (forall a ::
          && !Matches(At(d, Reservation(a)), Some(plan.Of(a).abandoned))
          && !Matches(At(d, Config(a, SideOf(d, a))), Some(plan.Of(a).configRollback)))
  }

  lemma SlotsFilled(plan: Plan, initial: Disk, v: View, d: Disk)
    requires Depicts(plan, initial, v, d) && v.transaction
    ensures BackupSession in d || Staged(SessionPublish) in d <==> v.session != Removed
    ensures ActiveIssuer in d || Staged(ActivePublish) in d <==> v.active != Removed
  {
    assert At(d, BackupSession) == Expected(plan, initial, v, BackupSession);
    assert At(d, Staged(SessionPublish)) == Expected(plan, initial, v, Staged(SessionPublish));
    assert At(d, ActiveIssuer) == Expected(plan, initial, v, ActiveIssuer);
    assert At(d, Staged(ActivePublish)) == Expected(plan, initial, v, Staged(ActivePublish));
  }

  lemma NothingWithdrawnInView(plan: Plan, initial: Disk, v: View, d: Disk)
    requires WellFormed(plan) && Depicts(plan, initial, v, d) && v.transaction
    ensures NothingWithdrawn(plan, d) <==> Intact(v)
  {
    hide Depicts, Expected, WellFormed;
    DepictedLengths(plan, initial, v, d);
    ProvenanceReads(plan, initial, v, d);
    SlotsFilled(plan, initial, v, d);
    forall i | 0 <= i < |plan.issuers|
      ensures v.issuers[i] == Removed <==>
                Issuer(plan.issuers[i].name) !in d && Staged(IssuerStage(plan.issuers[i].name)) !in d
    {
      IssuerReads(plan, initial, v, d, i);
    }
    forall a
      ensures Matches(At(d, Reservation(a)), Some(plan.Of(a).abandoned)) <==> v.Of(a).abandoned
      ensures Matches(At(d, Config(a, SideOf(d, a))), Some(plan.Of(a).configRollback)) <==> v.Of(a).config == Restored
    {
      LocatedInView(plan, initial, v, d, a);
      ReservationReads(plan, initial, v, d, a);
      ConfigReads(plan, initial, v, d, a);
    }
    assert v.Of(Root) == v.root && v.Of(Intermediate) == v.intermediate;
  }

  /**
   An uninterrupted resume completes the migration if and only if no rollback has withdrawn
   anything, and then it leaves exactly the disk that an undisturbed forward run would have left.
  */
  lemma ResumeConverges(plan: Plan, initial: Disk, s: State, budget: nat)
    requires WellFormed(plan) && Initial(plan, initial)
    requires Inv(plan, initial, s) && s.journal.Some? && !s.journal.value.committed
    ensures var e := RunRecover(plan, Resume, s, budget);
      && Inv(plan, initial, e.state)
      && (ProvenanceStage in s.disk || ProvenanceDir in s.disk ==> Traced(plan, e.state))
      && (Stripped(s.disk) ==> Stripped(e.state.disk))
      && (NothingWithdrawn(plan, s.disk) ==>
            && (e.outcome == Finished || e.outcome == Crashed)
            && e.state.journal.Some? && (e.state.journal.value.committed || NothingWithdrawn(plan, e.state.disk)))
      && (NothingWithdrawn(plan, s.disk) && budget >= ResumeCost(plan) ==> e.outcome == Finished)
      && (e.outcome == Finished ==>
            && NothingWithdrawn(plan, s.disk)
            && e.state.disk == RunMigrate(plan, initial, ForwardTailStart(plan) + 11).state.disk
            && !e.state.marker
            && e.state.journal == Some(CompletedJournal(
                 if ProvenanceStage in s.disk then Done(Resume, ProvenancePoint) else s.journal.value.step)))
  {
    hide Expected, WellFormed, RunFrom, Items, IsResume, Intact, NothingWithdrawn, MigratedView, RunMigrate, Initial;
    var v :| Consistent(plan, initial, v, s);
    var e := RunRecover(plan, Resume, s, budget);
    ResumePreflight(plan, initial, v, s);
    NothingWithdrawnInView(plan, initial, v, s.disk);
    AccountedInView(plan, initial, v, s);
    ProvenanceReads(plan, initial, v, s.disk);
    if Preflight(plan, s, Resume) {
      ResumeItems(plan, s.disk);
      var items := Items(plan, Recover(Resume), s.disk);
      assert ResumeAt(plan, 0, v);
      ResumeRuns(plan, initial, items, 0, v, s, budget);
      if Intact(v) && e.state.journal.Some? && !e.state.journal.value.committed {
        IntactWithdrawsNothing(plan, initial, e.state);
      }
      if e.outcome == Finished {
        ForwardFinishes(plan, initial);
        DepictedOnce(plan, initial, MigratedView(plan), e.state.disk,
                     RunMigrate(plan, initial, ForwardTailStart(plan) + 11).state.disk);
        if v.provenance == Published { PublishedIsDelivered(v); }
        IntactNotRemoved(v);
      }
    }
  }

  lemma IntactWithdrawsNothing(plan: Plan, initial: Disk, s: State)
    requires WellFormed(plan) && IntactState(plan, initial, s) && s.journal.Some? && !s.journal.value.committed
    ensures NothingWithdrawn(plan, s.disk)
  {
    var v :| Consistent(plan, initial, v, s) && Intact(v);
    NothingWithdrawnInView(plan, initial, v, s.disk);
  }

  lemma IntactNotRemoved(v: View)
    requires Intact(v)
    ensures v.provenance != Removed
  {
  }

  lemma PublishedIsDelivered(v: View)
    requires ViewOk(v) && v.provenance == Published && Stocked(v)
    ensures Delivered(v)
  {
  }

  /** An undisturbed forward run is never refused; given enough budget, it completes. */
  lemma ForwardFinishes(plan: Plan, initial: Disk)
    requires WellFormed(plan) && Initial(plan, initial)
    ensures var e := RunMigrate(plan, initial, ForwardTailStart(plan) + 11);
      e.outcome == Finished && Depicts(plan, initial, MigratedView(plan), e.state.disk)
  {
    ForwardFrom(plan, initial, ForwardTailStart(plan) + 11);
  }

  lemma ForwardFrom(plan: Plan, initial: Disk, budget: nat)
    requires WellFormed(plan) && Initial(plan, initial)
    ensures ForwardEnds(plan, initial, 0, budget, RunMigrate(plan, initial, budget))
  {
    ForwardItems(plan, initial);
    ForwardViewStarts(plan);
    var s := State(initial, None, false);
    assert Consistent(plan, initial, ForwardView(plan, 0), s);
    ForwardRuns(plan, initial, Items(plan, Migrate, initial), 0, s, budget);
  }

  lemma ForwardViewStarts(plan: Plan)
    ensures ForwardView(plan, 0) == InitialView(plan)
  {
    var x, y := ForwardView(plan, 0), InitialView(plan);
    assert x.issuers == y.issuers && x.quarantined == y.quarantined;
  }
}
