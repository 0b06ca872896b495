/**
 The life of one service's history: candidates are retained, then finalized or abandoned.
 Every run keeps the finalized outcomes in one line that ends at the active pointer.
*/
module CsrLifecycle {
  import opened Options
  import opened CsrRecords
  import opened CsrWalk
  import opened CsrRetained

  datatype Reply = Published | Kept | Refused
  datatype Accepted = ActiveEvidence | SupersededEvidence | InactiveEvidence
  datatype State = Pending | FinalizedState | AbandonedState
  datatype Report = Report(state: State, accepted: Accepted) | NoReport

  datatype Step =
    | Retain(source: Source)
    | Decide(id: Id, verdict: Verdict, evidence: Evidence, now: nat)

  /** The pointer is absent, or authenticates. */
  predicate ActiveReads(c: Context, s: Store) {
    s.active.Some? ==> ActiveAuthenticates(c, s)
  }

  /** `_new_predecessor`, once the active pointer has been read. */
  function NewPredecessor(c: Context, s: Store, source: Source): Option<Predecessor> {
    match source.operation
    case Renew =>
      if s.active.None? then None
      else match Walk(c, s, s.active.value.requestId, {}) {
        case Denied(_) => None
        case Accepted(o) => if o.certificate == source.currentCertificate then Some(HostLocalPredecessor(o)) else None
      }
    case Migrate =>
      if s.active.Some? || s.managed.None? || s.managed.value.certificate != source.currentCertificate then None
      else Some(ManagedPredecessor(s.managed.value))
    case Issue =>
      if s.active.Some? || source.currentCertificate != NONE then None else Some(EmptyPredecessor())
  }

  predicate Sourced(c: Context, s: Store, id: Id) {
    id in s.sources && s.sources[id].requestId == id && s.sources[id].service == c.service && s.sources[id].target == c.target
  }

  /** The outcome and, for a finalization, the pointer are published as one step. */
  function Publish(c: Context, s: Store, id: Id, verdict: Verdict, e: Evidence, p: Predecessor): Store
    requires id in s.sources
  {
    var decision := DecisionFor(s.sources[id], e, verdict, p);
    var filed := s.(outcomes := s.outcomes[id := Filed(e, decision)]);
    if verdict == Finalize then filed.(active := Some(ActiveFor(s.sources[id], e, c.digest(decision)))) else filed
  }

  /** An outcome exists: only the very same decision is acknowledged, and nothing is written. */
  predicate Acknowledged(c: Context, s: Store, id: Id, verdict: Verdict, e: Evidence, now: nat)
    requires id in s.sources && id in s.outcomes
  {
    match Walk(c, s, id, {})
    case Denied(_) => false
    case Accepted(o) =>
      && FreshDeployment(c, e.deployment, s.sources[id], verdict, s.outcomes[id].decision.predecessor, now)
      && o.verdict == verdict && o.deployment == e.sha && o.deploymentSignature == e.signature && o.deployers == e.deployers
      && (verdict == Finalize ==>
            && s.active.Some? && s.active.value.requestId == id && s.active.value.deployment == e.sha
            && s.active.value.decision == o.decision)
  }

  function Decided(c: Context, s: Store, id: Id, verdict: Verdict, e: Evidence, now: nat): (Store, Reply) {
    if !Sourced(c, s, id) || !ActiveReads(c, s) then (s, Refused)
    else if id in s.outcomes then
      (s, if Acknowledged(c, s, id, verdict, e, now) then Kept else Refused)
    else
      match NewPredecessor(c, s, s.sources[id])
      case None => (s, Refused)
      case Some(p) =>
        if FreshDeployment(c, e.deployment, s.sources[id], verdict, p, now)
        then (Publish(c, s, id, verdict, e, p), Published) else (s, Refused)
  }

  function After(c: Context, s: Store, step: Step): Store {
    match step
    case Retain(source) =>
      if source.requestId in s.sources || source.requestId in s.outcomes || source.service != c.service || source.target != c.target
      then s else s.(sources := s.sources[source.requestId := source])
    case Decide(id, verdict, e, now) => Decided(c, s, id, verdict, e, now).0
  }

  function Run(c: Context, s: Store, steps: seq<Step>): Store
    decreases |steps|
  {
    if steps == [] then s else Run(c, After(c, s, steps[0]), steps[1..])
  }

  predicate Fresh(s: Store) {
    s.sources == map[] && s.outcomes == map[] && s.active == None
  }

  // -------------------------------------------------------------- invariant

  predicate SourcesFit(c: Context, s: Store) {
    && s.outcomes.Keys <= s.sources.Keys
    && forall id :: id in s.sources ==> Sourced(c, s, id)
  }

  ghost predicate OutcomesVouched(c: Context, s: Store) {
    forall id :: id in s.outcomes ==> Vouched(c, s, id)
  }

  /** The finalized outcomes are `line`, and the pointer repeats its head. */
  ghost predicate Headed(c: Context, s: Store, line: seq<Id>) {
    if s.active.None? then line == [] && Finalized(s) == {}
    else && OneLine(c, s, line) && Present(c, s, line[0])
         && s.active.value == ActiveOf(c, Recorded(c, s, line[0]))
  }

  ghost predicate Linear(c: Context, s: Store, line: seq<Id>) {
    SourcesFit(c, s) && OutcomesVouched(c, s) && Headed(c, s, line)
  }

  // ----------------------------------------------------------------- growth

  /** Everything authentication reads in `s` is unchanged in `t`. */
  predicate Grows(s: Store, t: Store) {
    && t.managed == s.managed
    && (forall id :: id in s.sources ==> id in t.sources && t.sources[id] == s.sources[id])
    && (forall id :: id in s.outcomes ==> id in t.outcomes && t.outcomes[id] == s.outcomes[id])
  }

  lemma {:induction false} ChainGrows(c: Context, s: Store, t: Store, chain: seq<Id>)
    requires Grows(s, t) && Chain(c, s, chain)
    ensures Chain(c, t, chain)
    ensures Present(c, s, chain[0]) && Present(c, t, chain[0]) && Recorded(c, t, chain[0]) == Recorded(c, s, chain[0])
  {
    hide Binds, ValidDeployment;
    if Follows(s, chain[0]) { ChainGrows(c, s, t, chain[1..]); }
  }

  /** What authenticates once authenticates at every later time, with the same result. */
  lemma WalkGrows(c: Context, s: Store, t: Store, id: Id)
    requires Grows(s, t) && Walk(c, s, id, {}).Accepted?
    ensures Walk(c, t, id, {}) == Walk(c, s, id, {})
  {
    hide Walk, Chain, Exact, Recorded, Present;
    var chain := WalkChain(c, s, id, {});
    ChainGrows(c, s, t, chain);
    ChainWalks(c, t, chain, {});
  }

  lemma GrowsTrans(s: Store, t: Store, u: Store)
    requires Grows(s, t) && Grows(t, u)
    ensures Grows(s, u)
  {
  }

  lemma StepGrows(c: Context, s: Store, step: Step)
    ensures Grows(s, After(c, s, step))
  {
    hide Walk, FreshDeployment, ActiveAuthenticates, NewPredecessor;
  }

  lemma {:induction false} RunGrows(c: Context, s: Store, steps: seq<Step>)
    ensures Grows(s, Run(c, s, steps))
    decreases |steps|
  {
    if steps != [] {
      StepGrows(c, s, steps[0]);
      RunGrows(c, After(c, s, steps[0]), steps[1..]);
      GrowsTrans(s, After(c, s, steps[0]), Run(c, s, steps));
    }
  }

  // ------------------------------------------------------------ preservation

  lemma VouchedGrows(c: Context, s: Store, t: Store, id: Id)
    requires Grows(s, t) && Vouched(c, s, id)
    ensures Vouched(c, t, id)
  {
    var chain :| Chain(c, s, chain) && chain[0] == id;
    ChainGrows(c, s, t, chain);
  }

  /** A readable pointer is the authenticated head of the line. */
  lemma PointerIsHead(c: Context, s: Store, line: seq<Id>)
    requires Linear(c, s, line) && s.active.Some?
    ensures Present(c, s, line[0])
    ensures |line| <= MAX_DEPTH ==> Walk(c, s, line[0], {}) == Accepted(Recorded(c, s, line[0]))
    ensures Walk(c, s, line[0], {}).Accepted? ==> |line| <= MAX_DEPTH && Walk(c, s, line[0], {}) == Accepted(Recorded(c, s, line[0]))
  {
    hide Walk, Chain, Exact, Recorded;
    LineIsChain(c, s, line);
    if |line| <= MAX_DEPTH { ChainWalks(c, s, line, {}); }
    if Walk(c, s, line[0], {}).Accepted? {
      var chain := WalkChain(c, s, line[0], {});
      ChainUnique(c, s, chain, line);
    }
  }

  /** The head of the line carries a finalize decision that results in itself. */
  lemma HeadResults(c: Context, s: Store, line: seq<Id>)
    requires Linear(c, s, line) && s.active.Some?
    ensures line[0] in s.outcomes && line[0] in s.sources
    ensures Recorded(c, s, line[0]).verdict == Finalize && Recorded(c, s, line[0]).resulting == line[0]
    ensures Recorded(c, s, line[0]).requestId == line[0]
  {
    hide Binds, ValidDeployment;
    assert line[0] in line by { LineStarts(c, s, line); }
    assert line[0] in Finalized(s);
  }

  /** The records that the command writes are those that authentication recomputes from its own inputs. */
  lemma WriterAgrees(c: Context, s: Store, id: Id, e: Evidence, verdict: Verdict, p: Predecessor)
    requires Sourced(c, s, id)
    ensures var source := s.sources[id];
            var decision := DecisionFor(source, e, verdict, p);
            && decision == ExpectedDecision(c, id, source, e, verdict, p)
            && ActiveFor(source, e, c.digest(decision)) == ActiveOf(c, OutcomeOf(c, source, Filed(e, decision)))
  {
  }

  /** A decision that is published is exactly the one that authentication recomputes. */
  lemma PublishedIsExact(c: Context, s: Store, line: seq<Id>, id: Id, verdict: Verdict, e: Evidence, p: Predecessor, now: nat)
    requires Linear(c, s, line) && ActiveReads(c, s) && Sourced(c, s, id) && id !in s.outcomes
    requires NewPredecessor(c, s, s.sources[id]) == Some(p)
    requires FreshDeployment(c, e.deployment, s.sources[id], verdict, p, now)
    ensures var t := Publish(c, s, id, verdict, e, p);
            && Grows(s, t) && Present(c, t, id)
            && (Follows(t, id) ==> s.active.Some? && Before(t, id) == line[0] && Present(c, s, line[0])
                                   && Exact(c, t, id, Some(Recorded(c, s, line[0]))))
            && (!Follows(t, id) ==> s.active.None? && Exact(c, t, id, None))
  {
    hide Walk, Chain, ValidDeployment, OneLine;
    if s.active.Some? {
      LineIsChain(c, s, line);
      PointerIsHead(c, s, line);
      HeadResults(c, s, line);
      assert line[0] == s.active.value.requestId;
    }
  }

  /** The new outcome's own history: on top of the line if it renews, by itself otherwise. */
  lemma PublishedChain(c: Context, s: Store, line: seq<Id>, id: Id, verdict: Verdict, e: Evidence, p: Predecessor, now: nat)
    requires Linear(c, s, line) && ActiveReads(c, s) && Sourced(c, s, id) && id !in s.outcomes
    requires NewPredecessor(c, s, s.sources[id]) == Some(p)
    requires FreshDeployment(c, e.deployment, s.sources[id], verdict, p, now)
    ensures Chain(c, Publish(c, s, id, verdict, e, p), [id] + line)
  {
    hide Walk, NewPredecessor, FreshDeployment, Exact, Binds, Recorded, OneLine, Publish;
    var t := Publish(c, s, id, verdict, e, p);
    PublishedIsExact(c, s, line, id, verdict, e, p, now);
    var chain := [id] + line;
    assert chain[1..] == line;
    if s.active.Some? {
      assert Chain(c, s, line) by { LineIsChain(c, s, line); }
      ChainGrows(c, s, t, line);
    }
  }

  lemma LineIsChain(c: Context, s: Store, line: seq<Id>)
    requires s.active.Some? && OneLine(c, s, line)
    ensures Chain(c, s, line) && line != [] && line[0] == s.active.value.requestId
  {
  }

  function LineAfter(c: Context, s: Store, line: seq<Id>, step: Step): seq<Id> {
    match step
    case Retain(_) => line
    case Decide(id, verdict, e, now) =>
      if Decided(c, s, id, verdict, e, now).1 == Published && verdict == Finalize then [id] + line else line
  }

  /** Growth that leaves the finalized outcomes and the pointer alone leaves the line alone. */
  lemma HeadedGrows(c: Context, s: Store, t: Store, line: seq<Id>)
    requires Headed(c, s, line) && Grows(s, t) && t.active == s.active && Finalized(t) == Finalized(s)
    ensures Headed(c, t, line)
  {
    hide Chain, Binds, Finalized, ActiveOf;
    if s.active.Some? {
      LineIsChain(c, s, line);
      ChainGrows(c, s, t, line);
    }
  }

  lemma RetainLinear(c: Context, s: Store, line: seq<Id>, source: Source)
    requires Linear(c, s, line)
    ensures Linear(c, After(c, s, Retain(source)), line)
  {
    hide Chain, Vouched, Headed, Grows;
    var t := After(c, s, Retain(source));
    StepGrows(c, s, Retain(source));
    HeadedGrows(c, s, t, line);
    forall id | id in t.outcomes ensures Vouched(c, t, id) { VouchedGrows(c, s, t, id); }
  }

  /** The published outcome heads the line if it is finalized, and the pointer repeats it. */
  lemma PublishHeads(c: Context, s: Store, line: seq<Id>, id: Id, verdict: Verdict, e: Evidence, p: Predecessor)
    requires Linear(c, s, line) && Sourced(c, s, id) && id !in s.outcomes
    requires var t := Publish(c, s, id, verdict, e, p); Grows(s, t) && Present(c, t, id) && Chain(c, t, [id] + line)
    ensures Headed(c, Publish(c, s, id, verdict, e, p), if verdict == Finalize then [id] + line else line)
  {
    hide Chain, Binds;
    var t := Publish(c, s, id, verdict, e, p);
    if verdict == Finalize {
      assert Finalized(t) == Finalized(s) + {id};
      forall x ensures x in Finalized(t) <==> x in [id] + line { }
      NewOnLine(c, s, line, id);
    } else {
      assert Finalized(t) == Finalized(s);
      HeadedGrows(c, s, t, line);
    }
  }

  lemma NewOnLine(c: Context, s: Store, line: seq<Id>, id: Id)
    requires Headed(c, s, line) && id !in s.outcomes
    ensures forall i, j :: 0 <= i < j < |[id] + line| ==> ([id] + line)[i] != ([id] + line)[j]
  {
    hide Chain, Present, Recorded, ActiveOf;
    var longer := [id] + line;
    forall i, j | 0 <= i < j < |longer| ensures longer[i] != longer[j] {
      assert longer[j] in line && longer[j] in Finalized(s);
    }
  }

  lemma PublishLinear(c: Context, s: Store, line: seq<Id>, id: Id, verdict: Verdict, e: Evidence, p: Predecessor, now: nat)
    requires Linear(c, s, line) && ActiveReads(c, s) && Sourced(c, s, id) && id !in s.outcomes
    requires NewPredecessor(c, s, s.sources[id]) == Some(p)
    requires FreshDeployment(c, e.deployment, s.sources[id], verdict, p, now)
    ensures Linear(c, Publish(c, s, id, verdict, e, p), if verdict == Finalize then [id] + line else line)
  {
    hide Chain, Headed, NewPredecessor, FreshDeployment, Exact, Vouched, ActiveReads, Present, Grows;
    var t := Publish(c, s, id, verdict, e, p);
    PublishedIsExact(c, s, line, id, verdict, e, p, now);
    PublishedChain(c, s, line, id, verdict, e, p, now);
    PublishHeads(c, s, line, id, verdict, e, p);
    forall x | x in t.outcomes ensures Vouched(c, t, x) {
      if x == id { HeadVouched(c, t, [id] + line); } else { VouchedGrows(c, s, t, x); }
    }
  }

  lemma HeadVouched(c: Context, s: Store, chain: seq<Id>)
    requires Chain(c, s, chain)
    ensures Vouched(c, s, chain[0])
  {
  }

  /** Every step keeps the single line; a published finalization makes it one longer. */
  lemma StepLinear(c: Context, s: Store, line: seq<Id>, step: Step)
    requires Linear(c, s, line)
    ensures Linear(c, After(c, s, step), LineAfter(c, s, line, step))
  {
    hide Linear, Publish, FreshDeployment, NewPredecessor, Acknowledged, ActiveReads;
    match step
    case Retain(source) => RetainLinear(c, s, line, source);
    case Decide(id, verdict, e, now) =>
      if Decided(c, s, id, verdict, e, now).1 == Published {
        PublishLinear(c, s, line, id, verdict, e, NewPredecessor(c, s, s.sources[id]).value, now);
      }
  }

  /** Over every run from an empty service the finalized outcomes form one line, with the pointer at its head. */
  lemma {:induction false} RunLinear(c: Context, s: Store, line: seq<Id>, steps: seq<Step>) returns (longer: seq<Id>)
    requires Linear(c, s, line)
    ensures Linear(c, Run(c, s, steps), longer)
    ensures |longer| >= |line| && longer[|longer| - |line|..] == line
    decreases |steps|
  {
    hide Linear, After;
    longer := line;
    if steps != [] {
      StepLinear(c, s, line, steps[0]);
      longer := RunLinear(c, After(c, s, steps[0]), LineAfter(c, s, line, steps[0]), steps[1..]);
    }
  }

  lemma FreshLinear(c: Context, s: Store)
    requires Fresh(s)
    ensures Linear(c, s, [])
  {
    hide Sourced, Vouched, OneLine;
  }

  lemma LinearHeaded(c: Context, s: Store, line: seq<Id>)
    requires Linear(c, s, line)
    ensures s.active.None? ==> Finalized(s) == {}
    ensures s.active.Some? ==> OneLine(c, s, line) && s.active.value == ActiveOf(c, Recorded(c, s, line[0]))
  {
    hide Chain, SourcesFit, OutcomesVouched, Finalized, Recorded, ActiveOf;
  }

  lemma EveryRunIsOneLine(c: Context, s: Store, steps: seq<Step>) returns (line: seq<Id>)
    requires Fresh(s)
    ensures var t := Run(c, s, steps);
            && Linear(c, t, line)
            && (t.active.None? ==> Finalized(t) == {})
            && (t.active.Some? ==> OneLine(c, t, line) && t.active.value == ActiveOf(c, Recorded(c, t, line[0])))
  {
    hide Linear, Run, Fresh, Finalized, ActiveOf, Chain;
    FreshLinear(c, s);
    line := RunLinear(c, s, [], steps);
    LinearHeaded(c, Run(c, s, steps), line);
  }

  // -------------------------------------------------- the retained-history check

  ghost predicate Short(c: Context, s: Store) {
    forall chain :: Chain(c, s, chain) ==> |chain| <= MAX_DEPTH
  }

  lemma SupersededOnLine(c: Context, s: Store, line: seq<Id>, i: nat)
    requires s.active.Some? && OneLine(c, s, line) && i < |line|
    ensures line[i] in Superseded(s) <==> i > 0
  {
    hide Chain, Exact, Binds, Recorded, Present;
    ChainPresent(c, s, line, i);
    assert line[i] in line;
    if i > 0 {
      ChainPresent(c, s, line, i - 1);
      assert line[i - 1] in line && line[i - 1] in Finalized(s);
      assert line[i - 1] in s.sources by { PresentSource(c, s, line[i - 1]); }
    }
    if line[i] in Superseded(s) {
      var y :| y in Finalized(s) && y in s.sources && Follows(s, y) && Before(s, y) == line[i];
      var j :| 0 <= j < |line| && line[j] == y;
      ChainPresent(c, s, line, j);
    }
  }

  lemma PresentSource(c: Context, s: Store, id: Id)
    requires Present(c, s, id)
    ensures id in s.sources && id in s.outcomes
  {
  }

  /** Only the head of the line is not superseded. */
  lemma OnlyTheHead(c: Context, s: Store, line: seq<Id>)
    requires Linear(c, s, line)
    ensures Finalized(s) - Superseded(s) == ActiveIds(s)
  {
    hide Chain, Exact, Binds, Recorded, Vouched, Finalized, Superseded, Present;
    if s.active.Some? {
      LineIsChain(c, s, line);
      forall i | 0 <= i < |line| ensures line[i] in Superseded(s) <==> i > 0 { SupersededOnLine(c, s, line, i); }
      assert line[0] in line;
    }
  }

  lemma ShortWalks(c: Context, s: Store, line: seq<Id>)
    requires Linear(c, s, line) && Short(c, s)
    ensures forall x :: x in s.outcomes ==> Walk(c, s, x, {}).Accepted?
    ensures ActiveReads(c, s)
  {
    hide Exact, Binds, Walk, Present;
    forall x | x in s.outcomes ensures Walk(c, s, x, {}).Accepted? {
      var chain :| Chain(c, s, chain) && chain[0] == x;
      ChainWalks(c, s, chain, {});
    }
    if s.active.Some? {
      LineIsChain(c, s, line);
      PointerIsHead(c, s, line);
      HeadResults(c, s, line);
    }
  }

  lemma WalksShort(c: Context, s: Store)
    requires OutcomesAuthenticate(c, s)
    ensures Short(c, s)
  {
    hide Exact, Binds, Walk;
    forall chain | Chain(c, s, chain) ensures |chain| <= MAX_DEPTH {
      ChainPresent(c, s, chain, 0);
      var walked := WalkChain(c, s, chain[0], {});
      ChainUnique(c, s, chain, walked);
    }
  }

  /** A reachable state is accepted exactly when no candidate is pending and no history exceeds the depth bound. */
  lemma LinearAccepted(c: Context, s: Store, line: seq<Id>)
    requires Linear(c, s, line)
    ensures ServiceAccepted(c, s) <==> s.sources.Keys == s.outcomes.Keys && Short(c, s)
  {
    hide Linear, Chain, Walk, Finalized, Superseded, Short, ActiveAuthenticates;
    OnlyTheHead(c, s, line);
    if s.sources.Keys == s.outcomes.Keys && Short(c, s) { ShortWalks(c, s, line); }
    if ServiceAccepted(c, s) { WalksShort(c, s); }
  }

  lemma ReachableAccepted(c: Context, s: Store, steps: seq<Step>)
    requires Fresh(s)
    ensures var t := Run(c, s, steps); ServiceAccepted(c, t) <==> t.sources.Keys == t.outcomes.Keys && Short(c, t)
  {
    hide Linear, ServiceAccepted, Short;
    var line := EveryRunIsOneLine(c, s, steps);
    LinearAccepted(c, Run(c, s, steps), line);
  }

  // ------------------------------------------------------- fresh and retained

  /** The evidence of `id` was accepted fresh and its outcome filed, giving `t`. */
  predicate Accepts(c: Context, s: Store, id: Id, verdict: Verdict, e: Evidence, now: nat, t: Store) {
    Decided(c, s, id, verdict, e, now) == (t, Published)
  }

  /** The history that a decision on `id` will have fits the depth bound. */
  predicate Fits(s: Store, line: seq<Id>, id: Id) {
    id in s.sources && (Follows(s, id) ==> |line| < MAX_DEPTH)
  }

  /** With a line beyond the depth bound nothing is ever decided for the service again, and it is never accepted. */
  lemma {:induction false} TooDeepStrands(c: Context, s: Store, line: seq<Id>, steps: seq<Step>)
    requires Linear(c, s, line) && s.active.Some? && |line| > MAX_DEPTH
    ensures var t := Run(c, s, steps);
            t.outcomes == s.outcomes && t.active == s.active && !ServiceAccepted(c, t)
            && forall id, verdict, e, now :: Decided(c, t, id, verdict, e, now).1 == Refused
    decreases |steps|
  {
    hide Linear, Walk, Chain, NewPredecessor, FreshDeployment, OutcomesAuthenticate, Finalized, Superseded;
    PointerRefused(c, s, line);
    if steps != [] {
      StepLinear(c, s, line, steps[0]);
      TooDeepStrands(c, After(c, s, steps[0]), line, steps[1..]);
    }
  }

  lemma PointerRefused(c: Context, s: Store, line: seq<Id>)
    requires Linear(c, s, line) && s.active.Some? && |line| > MAX_DEPTH
    ensures !ActiveReads(c, s)
  {
    hide Walk, Chain;
    PointerIsHead(c, s, line);
  }

  /** The state that a published decision leaves: the outcome heads a chain of its own. */
  lemma PublishedState(c: Context, s: Store, line: seq<Id>, id: Id, verdict: Verdict, e: Evidence, now: nat, t: Store)
    requires Linear(c, s, line) && Accepts(c, s, id, verdict, e, now, t)
    ensures Linear(c, t, if verdict == Finalize then [id] + line else line) && Grows(s, t)
    ensures Chain(c, t, [id] + line) && Present(c, t, id) && ActiveReads(c, s)
    ensures id in t.outcomes && t.outcomes[id].evidence == e && t.outcomes[id].decision.verdict == verdict
    ensures if verdict == Finalize then t.active.Some? && t.active.value.requestId == id else t.active == s.active
    ensures Fits(s, line, id) <==> |line| < MAX_DEPTH
  {
    hide Walk, Chain, FreshDeployment, NewPredecessor, Exact, Binds, Headed, OutcomesVouched, Fits, OneLine, ActiveReads;
    var p := NewPredecessor(c, s, s.sources[id]).value;
    PublishedIsExact(c, s, line, id, verdict, e, p, now);
    PublishedChain(c, s, line, id, verdict, e, p, now);
    PublishLinear(c, s, line, id, verdict, e, p, now);
    OnlyRenewalsExtend(c, s, line, id);
  }

  lemma OnlyRenewalsExtend(c: Context, s: Store, line: seq<Id>, id: Id)
    requires Linear(c, s, line) && id in s.sources && NewPredecessor(c, s, s.sources[id]).Some?
    ensures Fits(s, line, id) <==> |line| < MAX_DEPTH
  {
    hide Walk, Chain;
  }

  /**
   After a published decision: its outcome authenticates if and only if its history fits the depth bound, and
   the pointer reads unless a finalization does not fit.
  */
  lemma PublishedReadsExactly(c: Context, s: Store, line: seq<Id>, id: Id, verdict: Verdict, e: Evidence, now: nat, t: Store)
    requires Linear(c, s, line) && Accepts(c, s, id, verdict, e, now, t)
    ensures Walk(c, t, id, {}).Accepted? <==> Fits(s, line, id)
    ensures ActiveReads(c, t) <==> verdict == Abandon || Fits(s, line, id)
  {
    hide Walk, Chain, Exact, Binds, Linear, Headed, Fits, Accepts, ActiveReads, Grows, Present;
    PublishedState(c, s, line, id, verdict, e, now, t);
    var chain := [id] + line;
    if Fits(s, line, id) {
      ChainWalks(c, t, chain, {});
    } else if Walk(c, t, id, {}).Accepted? {
      var walked := WalkChain(c, t, id, {});
      ChainUnique(c, t, walked, chain);
    }
    if verdict == Abandon || Fits(s, line, id) {
      FreshPointerReads(c, s, t, line, id, verdict);
    } else {
      PointerRefused(c, t, chain);
    }
  }

  /**
   Over every later run. A decision whose history fits authenticates exactly as it was filed. One whose history
   does not fit leaves a service that is never accepted, and if it is a finalization, nothing is decided any more.
  */
  lemma PublishedForEver(c: Context, s: Store, line: seq<Id>, id: Id, verdict: Verdict, e: Evidence, now: nat,
                         t: Store, steps: seq<Step>)
    requires Linear(c, s, line) && Accepts(c, s, id, verdict, e, now, t)
    ensures var u := Run(c, t, steps);
            && id in u.sources && id in u.outcomes && u.outcomes[id].evidence == e && u.outcomes[id].decision.verdict == verdict
            && (Fits(s, line, id) ==> Walk(c, u, id, {}) == Accepted(Recorded(c, u, id)))
            && (!Fits(s, line, id) ==> !ServiceAccepted(c, u))
            && (!Fits(s, line, id) && verdict == Finalize ==>
                  && u.outcomes == t.outcomes && u.active == t.active
                  && forall other, v, f, at :: Decided(c, u, other, v, f, at).1 == Refused)
  {
    hide Walk, Chain, Exact, Binds, Linear, Fits, Accepts, ActiveReads, ServiceAccepted, Decided, Run, Recorded;
    PublishedState(c, s, line, id, verdict, e, now, t);
    PublishedReadsExactly(c, s, line, id, verdict, e, now, t);
    var u := Run(c, t, steps);
    RunGrows(c, t, steps);
    RecordedGrows(c, t, u, id);
    if Fits(s, line, id) {
      ChainWalks(c, t, [id] + line, {});
      WalkGrows(c, t, u, id);
    } else {
      var longer := RunLinear(c, t, if verdict == Finalize then [id] + line else line, steps);
      ChainGrows(c, t, u, [id] + line);
      LinearAccepted(c, u, longer);
      TooLong(c, u, [id] + line);
      if verdict == Finalize { TooDeepStrands(c, t, [id] + line, steps); }
    }
  }

  lemma TooLong(c: Context, s: Store, chain: seq<Id>)
    requires Chain(c, s, chain) && |chain| > MAX_DEPTH
    ensures !Short(c, s)
  {
    hide Chain;
  }

  lemma RecordedGrows(c: Context, s: Store, t: Store, id: Id)
    requires Grows(s, t) && id in s.sources && id in s.outcomes
    ensures id in t.sources && id in t.outcomes && t.outcomes[id] == s.outcomes[id]
    ensures Recorded(c, t, id) == Recorded(c, s, id)
  {
  }

  lemma FreshPointerReads(c: Context, s: Store, t: Store, line: seq<Id>, id: Id, verdict: Verdict)
    requires Linear(c, t, if verdict == Finalize then [id] + line else line)
    requires ActiveReads(c, s) && Grows(s, t) && (verdict == Abandon ==> t.active == s.active)
    requires verdict == Finalize ==> t.active.Some? && t.active.value.requestId == id && Walk(c, t, id, {}).Accepted?
    ensures ActiveReads(c, t)
  {
    hide Walk, Chain, Exact, Binds;
    if t.active.Some? {
      if verdict == Finalize {
        PointerIsHead(c, t, [id] + line);
        HeadResults(c, t, [id] + line);
      } else {
        WalkGrows(c, s, t, s.active.value.requestId);
      }
    }
  }

  /** Deciding again with the same evidence writes nothing; it is acknowledged exactly while it is still in force. */
  lemma RetryAcknowledged(c: Context, s: Store, line: seq<Id>, id: Id, verdict: Verdict, e: Evidence, now: nat,
                          t: Store, steps: seq<Step>, later: nat)
    requires Linear(c, s, line) && Accepts(c, s, id, verdict, e, now, t) && Fits(s, line, id)
    requires var u := Run(c, t, steps); ActiveReads(c, u)
    ensures var u := Run(c, t, steps);
            var in_time := later <= e.deployment.expires + 300 && e.deployment.created <= later + 300;
            var in_force := verdict == Abandon || (u.active.Some? && u.active.value.requestId == id);
            Decided(c, u, id, verdict, e, later) == (u, if in_time && in_force then Kept else Refused)
  {
    hide Walk, Linear, ActiveReads, Decided, FreshDeployment, Run;
    var u := Run(c, t, steps);
    PublishedForEver(c, s, line, id, verdict, e, now, t, steps);
    var p := FiledAsDecided(c, s, id, verdict, e, now, t, steps);
    FreshAgain(c, e.deployment, u.sources[id], verdict, p, now, later);
    if u.active.Some? && u.active.value.requestId == id { PointerRepeats(c, u, id); }
    RetryDecides(c, u, id, verdict, e, later);
  }

  lemma FiledAsDecided(c: Context, s: Store, id: Id, verdict: Verdict, e: Evidence, now: nat, t: Store, steps: seq<Step>)
    returns (p: Predecessor)
    requires Accepts(c, s, id, verdict, e, now, t)
    ensures var u := Run(c, t, steps);
            && Sourced(c, u, id) && id in u.outcomes
            && u.outcomes[id] == Filed(e, DecisionFor(u.sources[id], e, verdict, p))
            && FreshDeployment(c, e.deployment, u.sources[id], verdict, p, now)
  {
    hide Walk, FreshDeployment, NewPredecessor, ActiveReads, Run;
    p := NewPredecessor(c, s, s.sources[id]).value;
    RunGrows(c, t, steps);
  }

  /** Only the moment matters when the same evidence is presented again. */
  lemma FreshAgain(c: Context, d: Deployment, source: Source, verdict: Verdict, p: Predecessor, now: nat, later: nat)
    requires FreshDeployment(c, d, source, verdict, p, now)
    ensures FreshDeployment(c, d, source, verdict, p, later) <==> d.created <= later + 300 && later <= d.expires + 300
  {
    hide ValidDeployment, BindsFresh;
  }

  lemma RetryDecides(c: Context, s: Store, id: Id, verdict: Verdict, e: Evidence, now: nat)
    requires Sourced(c, s, id) && ActiveReads(c, s) && id in s.outcomes
    ensures Decided(c, s, id, verdict, e, now) == (s, if Acknowledged(c, s, id, verdict, e, now) then Kept else Refused)
  {
    hide Acknowledged, ActiveReads;
  }

  /** A readable pointer to `id` carries the digests of its outcome. */
  lemma PointerRepeats(c: Context, s: Store, id: Id)
    requires ActiveReads(c, s) && Walk(c, s, id, {}).Accepted? && s.active.Some? && s.active.value.requestId == id
    ensures s.active.value.deployment == Walk(c, s, id, {}).outcome.deployment
    ensures s.active.value.decision == Walk(c, s, id, {}).outcome.decision
  {
    hide Walk;
  }

  // ------------------------------------------------------------------ status

  /** The active pointer's history repeats the candidate and its outcome. */
  predicate Repeats(source: Source, outcome: Outcome, history: Outcome) {
    && outcome.verdict == Finalize
    && history.certificate == source.certificate && history.spki == source.spki && history.response == source.response
    && history.artifact == source.artifact && history.deployment == outcome.deployment && history.decision == outcome.decision
  }

  /** What `verify` reports of one candidate, read-only. */
  function Status(c: Context, s: Store, id: Id): Report {
    if !Sourced(c, s, id) || !ActiveReads(c, s) then NoReport
    else
      var named := s.active.Some? && s.active.value.requestId == id;
      if id !in s.outcomes then if named then NoReport else Report(Pending, InactiveEvidence)
      else
        match Walk(c, s, id, {})
        case Denied(_) => NoReport
        case Accepted(o) =>
          var state := if o.verdict == Finalize then FinalizedState else AbandonedState;
          if named then
            match Walk(c, s, s.active.value.requestId, {})
            case Denied(_) => NoReport
            case Accepted(history) =>
              if Repeats(s.sources[id], o, history) then Report(state, ActiveEvidence) else NoReport
          else Report(state, if state.FinalizedState? then SupersededEvidence else InactiveEvidence)
  }

  lemma StatusReads(c: Context, s: Store, line: seq<Id>, id: Id)
    requires Linear(c, s, line) && ActiveReads(c, s) && id in s.sources
    requires id in s.outcomes ==> Walk(c, s, id, {}).Accepted?
    ensures Status(c, s, id) ==
            if id !in s.outcomes then Report(Pending, InactiveEvidence)
            else if id !in line then Report(AbandonedState, InactiveEvidence)
            else Report(FinalizedState, if id == line[0] then ActiveEvidence else SupersededEvidence)
  {
    hide Walk, Chain, Exact, Binds, OutcomesVouched;
    if s.active.Some? {
      LineIsChain(c, s, line);
      PointerIsHead(c, s, line);
      HeadResults(c, s, line);
      assert line[0] in line;
    }
    if id in s.outcomes {
      var chain := WalkChain(c, s, id, {});
      assert id in Finalized(s) <==> id in line;
      assert id in Finalized(s) <==> Recorded(c, s, id).verdict == Finalize;
    }
    assert Sourced(c, s, id);
  }

  /**
   A candidate is reported active exactly at the head of the line, and superseded exactly below it. The report fails
   exactly if the pointer or the candidate's own outcome does not authenticate, so never while the histories fit.
  */
  lemma StatusExact(c: Context, s: Store, line: seq<Id>, id: Id)
    requires Linear(c, s, line) && id in s.sources
    ensures Status(c, s, id) ==
            if !ActiveReads(c, s) || (id in s.outcomes && Walk(c, s, id, {}).Denied?) then NoReport
            else if id !in s.outcomes then Report(Pending, InactiveEvidence)
            else if id !in line then Report(AbandonedState, InactiveEvidence)
            else Report(FinalizedState, if id == line[0] then ActiveEvidence else SupersededEvidence)
    ensures Short(c, s) ==> Status(c, s, id) != NoReport
  {
    hide Walk, Linear, ActiveReads, Repeats, Short;
    if ActiveReads(c, s) && (id in s.outcomes ==> Walk(c, s, id, {}).Accepted?) { StatusReads(c, s, line, id); }
    if Short(c, s) { ShortWalks(c, s, line); }
  }

  // ----------------------------------------------------------------- command

  /** The retained state of one service, as the candidate command reads and extends it. */
  class Service {
    const context: Context
    var store: Store

    constructor (context: Context, store: Store)
      ensures this.context == context && this.store == store
    {
      this.context, this.store := context, store;
    }

    method ReadActive() returns (ok: bool, history: Option<Outcome>)
      ensures ok == ActiveReads(context, store)
      ensures ok ==> if store.active.None? then history == None
                     else history.Some? && Walk(context, store, store.active.value.requestId, {}) == Accepted(history.value)
    {
      hide Walk;
      if store.active.None? { return true, None; }
      var a := Authenticate(context, store, store.active.value.requestId);
      if a.Denied? || a.outcome.verdict != Finalize || store.active.value != ActiveOf(context, a.outcome) { return false, None; }
      return true, Some(a.outcome);
    }

    method Decide(id: Id, verdict: Verdict, e: Evidence, now: nat) returns (reply: Reply)
      modifies this`store
      ensures (store, reply) == Decided(context, old(store), id, verdict, e, now)
      ensures Grows(old(store), store)
    {
      hide Walk, FreshDeployment;
      if !Sourced(context, store, id) { return Refused; }
      var fine, history := ReadActive();
      if !fine { return Refused; }
      var source := store.sources[id];
      if id in store.outcomes {
        var existing := Authenticate(context, store, id);
        if existing.Denied? { return Refused; }
        var o := existing.outcome;
        if !FreshDeployment(context, e.deployment, source, verdict, store.outcomes[id].decision.predecessor, now)
           || o.verdict != verdict || o.deployment != e.sha || o.deploymentSignature != e.signature || o.deployers != e.deployers {
          return Refused;
        }
        if verdict == Finalize
           && (history.None? || history.value.requestId != id
               || history.value.deployment != e.sha || history.value.decision != o.decision) {
          return Refused;
        }
        return Kept;
      }
      var proposed := Propose(source, history);
      if proposed.None? || !FreshDeployment(context, e.deployment, source, verdict, proposed.value, now) { return Refused; }
      var decision := DecisionFor(source, e, verdict, proposed.value);
      store := store.(outcomes := store.outcomes[id := Filed(e, decision)]);
      if verdict == Finalize { store := store.(active := Some(ActiveFor(source, e, context.digest(decision)))); }
      return Published;
    }

    method Propose(source: Source, history: Option<Outcome>) returns (p: Option<Predecessor>)
      requires ActiveReads(context, store)
      requires if store.active.None? then history == None
               else history.Some? && Walk(context, store, store.active.value.requestId, {}) == Accepted(history.value)
      ensures p == NewPredecessor(context, store, source)
    {
      hide Walk;
      match source.operation
      case Renew =>
        if history.None? || history.value.certificate != source.currentCertificate { return None; }
        return Some(HostLocalPredecessor(history.value));
      case Migrate =>
        if history.Some? || store.managed.None? || store.managed.value.certificate != source.currentCertificate { return None; }
        return Some(ManagedPredecessor(store.managed.value));
      case Issue =>
        if history.Some? || source.currentCertificate != NONE { return None; }
        return Some(EmptyPredecessor());
    }
  }
}
