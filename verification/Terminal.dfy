/**
 The end of a preparation: the outcome is committed in the journal, a marker is published, staging is
 removed, a receipt binds marker and journal, and both control files are unlinked. Any write may be the
 last one before the process is killed.
*/
module Terminal {
  import opened Options

  type Identity = nat

  datatype Outcome = Resumed | RolledBack
  datatype Action = Resume | Rollback
  datatype Kind = RootKind | IntermediateKind
  datatype Step = Unfinished | TransactionPending | TransactionDone | JournalPending

  /** A committed journal has an outcome. */
  datatype Journal = Journal(id: Identity, outcome: Option<Outcome>, step: Step)
  datatype Marker = Marker(id: Identity, transaction: string, outcome: Option<Outcome>)
  datatype Receipt = Receipt(transaction: string, outcome: Outcome, journal: Identity, marker: Identity)

  datatype Control = Control(
    journal: Option<Journal>, marker: Option<Marker>, receipt: Option<Receipt>,
    staging: bool, manifest: bool, clock: nat)

  /**
   What does not change any more: the preparation and how its records describe it. `settled` says of an
   outcome whether the published state is as it demands, apart from the root identity that an intermediate
   rollback is checked against.
  */
  datatype Plan = Plan(
    transaction: string, kind: Kind, rootRecorded: bool, settled: Outcome -> bool, manifested: bool, empty: bool)

  function ActionOf(o: Outcome): Action {
    if o == Resumed then Resume else Rollback
  }

  datatype Write =
    | Commit(step: Step)
    | PublishMarker
    | RemoveStaging
    | RemoveManifest
    | PublishReceipt
    | UnlinkJournal
    | UnlinkMarker

  const FINISH: seq<Write> := [
    Commit(TransactionPending), PublishMarker, RemoveStaging, RemoveManifest,
    Commit(TransactionDone), Commit(JournalPending), PublishReceipt, UnlinkJournal, UnlinkMarker]

  /** Staging or its manifest may be gone already. */
  predicate Skipped(c: Control, w: Write) {
    (w == RemoveStaging && !c.staging) || (w == RemoveManifest && !c.manifest)
  }

  predicate Possible(p: Plan, c: Control, w: Write) {
    match w
    case RemoveStaging => if p.manifested then c.manifest else p.empty
    case PublishReceipt => c.journal.Some? && c.marker.Some?
    case UnlinkJournal => c.journal.Some? && c.receipt.Some? && c.journal.value.id == c.receipt.value.journal
    case UnlinkMarker => c.marker.Some? && c.receipt.Some? && c.marker.value.id == c.receipt.value.marker
    case _ => true
  }

  /** Every publication gives the file a new identity. */
  function Perform(p: Plan, c: Control, o: Outcome, w: Write): Control
    requires Possible(p, c, w)
  {
    match w
    case Commit(step) => c.(journal := Some(Journal(c.clock, Some(o), step)), clock := c.clock + 1)
    case PublishMarker => c.(marker := Some(Marker(c.clock, p.transaction, Some(o))), clock := c.clock + 1)
    case RemoveStaging => c.(staging := false)
    case RemoveManifest => c.(manifest := false)
    case PublishReceipt => c.(receipt := Some(Receipt(p.transaction, o, c.journal.value.id, c.marker.value.id)))
    case UnlinkJournal => c.(journal := None)
    case UnlinkMarker => c.(marker := None)
  }

  datatype Status = Finished | Crashed | Died
  datatype Run = Run(control: Control, status: Status)

  function Writes(p: Plan, c: Control, o: Outcome, ws: seq<Write>, fuel: nat): Run
    decreases |ws|
  {
    if ws == [] then Run(c, Finished)
    else if Skipped(c, ws[0]) then Writes(p, c, o, ws[1..], fuel)
    else if !Possible(p, c, ws[0]) then Run(c, Died)
    else if fuel == 0 then Run(c, Crashed)
    else Writes(p, Perform(p, c, o, ws[0]), o, ws[1..], fuel - 1)
  }

  /** `_finish_preparation`. */
  function Finish(p: Plan, c: Control, action: Action, o: Outcome, fuel: nat): Run {
    if action != ActionOf(o) then Run(c, Died) else Writes(p, c, o, FINISH, fuel)
  }

  /** `_validate_preparation_committed`: an intermediate rollback must have the root's identity recorded. */
  predicate Validates(p: Plan, o: Outcome) {
    p.settled(o) && (o == RolledBack && p.kind == IntermediateKind ==> p.rootRecorded)
  }

  /** The binding that `validate_preparation_terminal_records` demands. */
  predicate Bound(c: Control, transaction: string, action: Action) {
    && c.marker.Some? && c.receipt.Some? && c.marker.value.outcome.Some?
    && c.marker.value.transaction == c.receipt.value.transaction == transaction
    && c.marker.value.outcome.value == c.receipt.value.outcome
    && c.receipt.value.marker == c.marker.value.id
    && action == ActionOf(c.receipt.value.outcome)
  }

  /** The recovery command on a committed preparation. */
  function Recover(p: Plan, c: Control, transaction: string, action: Action, fuel: nat): Run {
    if c.journal.None? then
      if !Bound(c, transaction, action) then Run(c, Died)
      else if fuel == 0 then Run(c, Crashed) else Run(c.(marker := None), Finished)
    else if transaction != p.transaction then Run(c, Died)
    else
      match c.journal.value.outcome
      case None => Run(c, Died)
      case Some(o) => if action != ActionOf(o) || !Validates(p, o) then Run(c, Died) else Finish(p, c, action, o, fuel)
  }

  datatype Command = Command(transaction: string, action: Action, fuel: nat)

  function Recovers(p: Plan, c: Control, commands: seq<Command>): Control
    decreases |commands|
  {
    if commands == [] then c
    else Recovers(p, Recover(p, c, commands[0].transaction, commands[0].action, commands[0].fuel).control, commands[1..])
  }

  // --------------------------------------------------------------- invariant

  /** Identities are given out in order. */
  predicate Young(c: Control) {
    && (c.journal.Some? ==> c.journal.value.id < c.clock)
    && (c.marker.Some? ==> c.marker.value.id < c.clock)
  }

  /** What is needed to remove what is left of staging. */
  predicate Removable(p: Plan, c: Control) {
    c.staging ==> if p.manifested then c.manifest else p.empty
  }

  /** `o` is committed: the journal says so, or the journal is gone and the receipt binds the marker that is left. */
  predicate Committed(p: Plan, c: Control, o: Outcome) {
    && Young(c) && Removable(p, c)
    && if c.journal.Some? then c.journal.value.outcome == Some(o)
       else c.marker.Some? ==>
              && c.marker.value == Marker(c.marker.value.id, p.transaction, Some(o))
              && c.receipt.Some? && c.receipt.value == Receipt(p.transaction, o, c.receipt.value.journal, c.marker.value.id)
  }

  /** The two control files are gone. */
  predicate Closed(c: Control) {
    c.journal.None? && c.marker.None?
  }

  /** How far one finishing run has come. */
  predicate Midway(p: Plan, c: Control, o: Outcome, i: nat) {
    && Committed(p, c, o)
    && (i <= 7 ==> c.journal.Some?)
    && (2 <= i <= 8 ==> c.marker.Some? && c.marker.value.transaction == p.transaction && c.marker.value.outcome == Some(o))
    && (7 <= i <= 8 ==> c.receipt.Some? && c.receipt.value.transaction == p.transaction && c.receipt.value.outcome == o
                        && c.receipt.value.marker == c.marker.value.id)
    && (i == 7 ==> c.receipt.value.journal == c.journal.value.id)
    && (i == 8 ==> c.journal.None?)
    && (i == 9 ==> Closed(c))
    && (3 <= i ==> !c.staging)
  }

  lemma WriteKeeps(p: Plan, c: Control, o: Outcome, i: nat)
    requires i < |FINISH|
    requires if i == 0 then Young(c) && Removable(p, c) && c.journal.Some? else Midway(p, c, o, i)
    ensures Skipped(c, FINISH[i]) ==> i > 0 && Midway(p, c, o, i + 1)
    ensures !Skipped(c, FINISH[i]) ==> Possible(p, c, FINISH[i]) && Midway(p, Perform(p, c, o, FINISH[i]), o, i + 1)
  {
  }

  lemma {:induction false} WritesKeep(p: Plan, c: Control, o: Outcome, i: nat, fuel: nat)
    requires i <= |FINISH|
    requires if i == 0 then Young(c) && Removable(p, c) && c.journal.Some? else Midway(p, c, o, i)
    ensures var r := Writes(p, c, o, FINISH[i..], fuel);
            && r.status != Died && (fuel >= |FINISH| - i ==> r.status == Finished)
            && (r.status == Finished ==> Closed(r.control))
            && (r.control == c || Committed(p, r.control, o))
    decreases |FINISH| - i
  {
    hide Midway, Perform, Possible, Skipped, Committed, Young, Removable;
    if i < |FINISH| {
      WriteKeeps(p, c, o, i);
      Unrolled(p, c, o, FINISH, i, fuel);
      if Skipped(c, FINISH[i]) {
        WritesKeep(p, c, o, i + 1, fuel);
      } else if fuel > 0 {
        WritesKeep(p, Perform(p, c, o, FINISH[i]), o, i + 1, fuel - 1);
        MidwayCommitted(p, Perform(p, c, o, FINISH[i]), o, i + 1);
      }
    } else {
      MidwayEnds(p, c, o);
    }
  }

  lemma Unrolled(p: Plan, c: Control, o: Outcome, ws: seq<Write>, i: nat, fuel: nat)
    requires i < |ws|
    ensures Writes(p, c, o, ws[i..], fuel) ==
            if Skipped(c, ws[i]) then Writes(p, c, o, ws[i + 1..], fuel)
            else if !Possible(p, c, ws[i]) then Run(c, Died)
            else if fuel == 0 then Run(c, Crashed)
            else Writes(p, Perform(p, c, o, ws[i]), o, ws[i + 1..], fuel - 1)
  {
    assert ws[i..][1..] == ws[i + 1..];
  }

  lemma MidwayCommitted(p: Plan, c: Control, o: Outcome, i: nat)
    requires Midway(p, c, o, i)
    ensures Committed(p, c, o)
  {
  }

  lemma MidwayEnds(p: Plan, c: Control, o: Outcome)
    requires Midway(p, c, o, |FINISH|)
    ensures Closed(c)
  {
  }

  // ----------------------------------------------------------------- theorems

  /** The run that reaches its end commits its outcome with the first write, and finishes if it is not killed. */
  lemma FinishCommits(p: Plan, c: Control, action: Action, o: Outcome, fuel: nat)
    requires Young(c) && Removable(p, c) && c.journal.Some? && action == ActionOf(o)
    ensures var r := Finish(p, c, action, o, fuel);
            && r.status != Died
            && (fuel == 0 ==> r.control == c && r.status == Crashed)
            && (fuel > 0 ==> Committed(p, r.control, o))
            && (fuel >= |FINISH| ==> r.status == Finished && Closed(r.control))
  {
    hide Midway, Committed, Removable, Writes;
    assert FINISH[0..] == FINISH;
    WritesKeep(p, c, o, 0, fuel);
    if fuel > 0 {
      WriteKeeps(p, c, o, 0);
      WritesKeep(p, Perform(p, c, o, FINISH[0]), o, 1, fuel - 1);
      MidwayCommitted(p, Perform(p, c, o, FINISH[0]), o, 1);
    }
    FirstWrite(p, c, o, fuel);
  }

  lemma FirstWrite(p: Plan, c: Control, o: Outcome, fuel: nat)
    ensures Writes(p, c, o, FINISH, fuel) ==
            if fuel == 0 then Run(c, Crashed) else Writes(p, Perform(p, c, o, FINISH[0]), o, FINISH[1..], fuel - 1)
  {
  }

  /** One recovery of a committed preparation. */
  lemma RecoverKeeps(p: Plan, c: Control, o: Outcome, transaction: string, action: Action, fuel: nat)
    requires Committed(p, c, o)
    ensures var r := Recover(p, c, transaction, action, fuel);
            && Committed(p, r.control, o)
            && (transaction != p.transaction || action != ActionOf(o) ==> r == Run(c, Died))
            && (transaction == p.transaction && action == ActionOf(o) && fuel >= |FINISH| ==>
                  && (r.status == Finished <==> !Closed(c) && (c.journal.None? || Validates(p, o)))
                  && (r.status == Finished ==> Closed(r.control)) && (r.status != Finished ==> r.control == c))
  {
    hide Perform, Writes, Validates;
    if c.journal.Some? && transaction == p.transaction && action == ActionOf(o) && Validates(p, o) {
      FinishCommits(p, c, action, o, fuel);
    }
  }

  /**
   Over every sequence of recoveries, killed or refused or not: the outcome that was committed stays, the
   opposite action and other transactions are refused, and one more recovery closes the preparation exactly
   if its journal is gone already or still validates.
  */
  lemma {:induction false} OutcomeIsFinal(p: Plan, c: Control, o: Outcome, commands: seq<Command>, fuel: nat)
    requires Committed(p, c, o) && fuel >= |FINISH|
    ensures var d := Recovers(p, c, commands);
            var r := Recover(p, d, p.transaction, ActionOf(o), fuel);
            && Committed(p, d, o)
            && (d.journal.Some? ==> d.journal.value.outcome == Some(o))
            && (d.journal.None? && d.marker.Some? ==> Bound(d, p.transaction, ActionOf(o)) && d.receipt.value.outcome == o)
            && (forall other :: other != ActionOf(o) ==> Recover(p, d, p.transaction, other, fuel) == Run(d, Died))
            && (r.status == Finished <==> !Closed(d) && (d.journal.None? || Validates(p, o)))
            && (r.status == Finished ==> Closed(r.control))
    decreases |commands|
  {
    hide Recover, Validates;
    if commands == [] {
      RecoverKeeps(p, c, o, p.transaction, ActionOf(o), fuel);
      forall other | other != ActionOf(o) ensures Recover(p, c, p.transaction, other, fuel) == Run(c, Died) {
        RecoverKeeps(p, c, o, p.transaction, other, fuel);
      }
    } else {
      var first := commands[0];
      RecoverKeeps(p, c, o, first.transaction, first.action, first.fuel);
      OutcomeIsFinal(p, Recover(p, c, first.transaction, first.action, first.fuel).control, o, commands[1..], fuel);
    }
  }

  /**
   An intermediate preparation rolled back before its candidates are staged has no root identity in its
   journal: killed after its commit and before its journal is unlinked, it is never closed.
  */
  lemma {:induction false} UnrecordedRootStrands(p: Plan, c: Control, commands: seq<Command>)
    requires Committed(p, c, RolledBack) && c.journal.Some? && p.kind == IntermediateKind && !p.rootRecorded
    ensures Recovers(p, c, commands) == c
    decreases |commands|
  {
    if commands != [] { UnrecordedRootStrands(p, c, commands[1..]); }
  }

  // ------------------------------------------------------------------ command

  /** The control files of one preparation, changed in place by the finishing run and by recoveries. */
  class Files {
    const plan: Plan
    var journal: Option<Journal>
    var marker: Option<Marker>
    var receipt: Option<Receipt>
    var staging: bool
    var manifest: bool
    var clock: nat
    var fuel: nat

    constructor (plan: Plan, c: Control)
      ensures this.plan == plan && Current() == c
    {
      this.plan, journal, marker, receipt := plan, c.journal, c.marker, c.receipt;
      staging, manifest, clock, fuel := c.staging, c.manifest, c.clock, 0;
    }

    function Current(): Control
      reads this
    {
      Control(journal, marker, receipt, staging, manifest, clock)
    }

    method Do(o: Outcome, w: Write)
      requires Possible(plan, Current(), w)
      modifies this
      ensures fuel == old(fuel) && Current() == Perform(plan, old(Current()), o, w)
    {
      match w {
        case Commit(step) => journal, clock := Some(Journal(clock, Some(o), step)), clock + 1;
        case PublishMarker => marker, clock := Some(Marker(clock, plan.transaction, Some(o))), clock + 1;
        case RemoveStaging => staging := false;
        case RemoveManifest => manifest := false;
        case PublishReceipt => receipt := Some(Receipt(plan.transaction, o, journal.value.id, marker.value.id));
        case UnlinkJournal => journal := None;
        case UnlinkMarker => marker := None;
      }
    }

    method DoAll(o: Outcome, ws: seq<Write>) returns (status: Status)
      modifies this
      ensures Run(Current(), status) == Writes(plan, old(Current()), o, ws, old(fuel))
    {
      hide Possible, Perform, Skipped;
      ghost var whole := Writes(plan, Current(), o, ws, fuel);
      var i := 0;
      while i < |ws|
        invariant i <= |ws| && whole == Writes(plan, Current(), o, ws[i..], fuel)
      {
        assert ws[i..][1..] == ws[i + 1..];
        if !Skipped(Current(), ws[i]) {
          if !Possible(plan, Current(), ws[i]) { return Died; }
          if fuel == 0 { return Crashed; }
          Do(o, ws[i]);
          fuel := fuel - 1;
        }
        i := i + 1;
      }
      return Finished;
    }

    method FinishPreparation(action: Action, o: Outcome, limit: nat) returns (status: Status)
      modifies this
      ensures Run(Current(), status) == Finish(plan, old(Current()), action, o, limit)
    {
      if action != ActionOf(o) { return Died; }
      fuel := limit;
      status := DoAll(o, FINISH);
    }

    method RecoverPreparation(transaction: string, action: Action, limit: nat) returns (status: Status)
      modifies this
      ensures Run(Current(), status) == Recover(plan, old(Current()), transaction, action, limit)
    {
      if journal.None? {
        if !Bound(Current(), transaction, action) { return Died; }
        if limit == 0 { return Crashed; }
        marker := None;
        return Finished;
      }
      if transaction != plan.transaction || journal.value.outcome.None? { return Died; }
      var o := journal.value.outcome.value;
      if action != ActionOf(o) || !Validates(plan, o) { return Died; }
      status := FinishPreparation(action, o, limit);
    }
  }
}
