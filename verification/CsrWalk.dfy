/**
 Authentication of one outcome: a walk along predecessors that must be acyclic, at most 256 long
 and exact at every step.
*/
module CsrWalk {
  import opened Options
  import opened CsrRecords

  const MAX_DEPTH: nat := 256

  datatype Failure = Cycle | TooDeep | Rejected
  datatype Answer = Accepted(outcome: Outcome) | Denied(failure: Failure)

  /** The retained source of `id` exists, is filed with a decision, and is about this request and service. */
  predicate Present(c: Context, s: Store, id: Id) {
    && id in s.sources && id in s.outcomes
    && s.sources[id].requestId == id && s.sources[id].service == c.service && s.sources[id].target == c.target
    && Binds(c, s.sources[id], s.outcomes[id].evidence.deployment)
  }

  function Recorded(c: Context, s: Store, id: Id): Outcome
    requires id in s.sources && id in s.outcomes
  {
    OutcomeOf(c, s.sources[id], s.outcomes[id])
  }

  predicate Follows(s: Store, id: Id)
    requires id in s.sources
  {
    s.sources[id].operation == Renew
  }

  function Before(s: Store, id: Id): Id
    requires id in s.outcomes
  {
    s.outcomes[id].decision.predecessor.requestId
  }

  /**
   The predecessor that an outcome must have recorded, given the authenticated one before it. The authenticator
   builds it field by field, apart from the candidate command's own builders; that both agree is a theorem.
  */
  function Predecessors(s: Store, source: Source, before: Option<Outcome>): Option<Predecessor> {
    match source.operation
    case Renew =>
      if before.Some? && before.value.verdict == Finalize && before.value.resulting == before.value.requestId
         && source.currentCertificate == before.value.certificate
      then
        var o := before.value;
        Some(Predecessor(HostLocal, o.requestId, o.certificate, o.spki, o.intermediate, o.response, o.artifact, o.deployment, o.decision))
      else None
    case Migrate =>
      if s.managed.Some? && source.currentCertificate == s.managed.value.certificate
      then
        var m := s.managed.value;
        Some(Predecessor(Managed, NONE, m.certificate, m.spki, m.intermediate, NONE, NONE, NONE, NONE))
      else None
    case Issue =>
      if source.currentCertificate == NONE
      then Some(Predecessor(NoPredecessor, NONE, NONE, NONE, NONE, NONE, NONE, NONE, NONE)) else None
  }

  /** The decision is exactly the one that the retained evidence entails. */
  predicate Exact(c: Context, s: Store, id: Id, before: Option<Outcome>)
    requires id in s.sources && id in s.outcomes
  {
    var source, filed := s.sources[id], s.outcomes[id];
    var p := Predecessors(s, source, before);
    && p.Some?
    && ValidDeployment(c, filed.evidence.deployment, source, filed.decision.verdict, p.value)
    && filed.decision == ExpectedDecision(c, id, source, filed.evidence, filed.decision.verdict, p.value)
  }

  /** The walk without its memo. `stack` holds the requests being authenticated. */
  function Walk(c: Context, s: Store, id: Id, stack: set<Id>): Answer
    decreases MAX_DEPTH - |stack|
  {
    if id in stack then Denied(Cycle)
    else if |stack| >= MAX_DEPTH then Denied(TooDeep)
    else if !Present(c, s, id) then Denied(Rejected)
    else if Follows(s, id) then
      match Walk(c, s, Before(s, id), stack + {id})
      case Denied(failure) => Denied(failure)
      case Accepted(before) =>
        if Exact(c, s, id, Some(before)) then Accepted(Recorded(c, s, id)) else Denied(Rejected)
    else if Exact(c, s, id, None) then Accepted(Recorded(c, s, id)) else Denied(Rejected)
  }

  // ----------------------------------------------------------------- chains

  /** A well-formed history from `id` back to its issue or migration. */
  predicate Chain(c: Context, s: Store, chain: seq<Id>) {
    && chain != []
    && Present(c, s, chain[0])
    && if Follows(s, chain[0]) then
         && |chain| > 1 && Before(s, chain[0]) == chain[1] && Chain(c, s, chain[1..])
         && Exact(c, s, chain[0], Some(Recorded(c, s, chain[1])))
       else |chain| == 1 && Exact(c, s, chain[0], None)
  }

  lemma {:induction false} ChainPresent(c: Context, s: Store, chain: seq<Id>, i: nat)
    requires Chain(c, s, chain) && i < |chain|
    ensures Present(c, s, chain[i]) && Chain(c, s, chain[i..])
    ensures Follows(s, chain[i]) <==> i + 1 < |chain|
    ensures i + 1 < |chain| ==> Before(s, chain[i]) == chain[i + 1]
  {
    if i > 0 {
      ChainPresent(c, s, chain[1..], i - 1);
      assert chain[1..][i - 1..] == chain[i..];
    } else {
      assert chain[0..] == chain;
    }
  }

  /** Predecessors are functional, so a request starts at most one chain. */
  lemma {:induction false} ChainUnique(c: Context, s: Store, x: seq<Id>, y: seq<Id>)
    requires Chain(c, s, x) && Chain(c, s, y) && x[0] == y[0]
    ensures x == y
  {
    if Follows(s, x[0]) {
      ChainUnique(c, s, x[1..], y[1..]);
      assert x == [x[0]] + x[1..] && y == [y[0]] + y[1..];
    }
  }

  /** A chain never comes back to a request: the histories from the two places would be equally long. */
  lemma ChainDistinct(c: Context, s: Store, chain: seq<Id>, i: nat, j: nat)
    requires Chain(c, s, chain) && i < j < |chain|
    ensures chain[i] != chain[j]
  {
    if chain[i] == chain[j] {
      ChainPresent(c, s, chain, i);
      ChainPresent(c, s, chain, j);
      ChainUnique(c, s, chain[i..], chain[j..]);
    }
  }

  /** Acceptance exhibits the chain. */
  lemma {:induction false} WalkChain(c: Context, s: Store, id: Id, stack: set<Id>) returns (chain: seq<Id>)
    requires Walk(c, s, id, stack).Accepted?
    ensures Chain(c, s, chain) && chain[0] == id && |chain| + |stack| <= MAX_DEPTH
    ensures forall x :: x in chain ==> x !in stack
    ensures Walk(c, s, id, stack) == Accepted(Recorded(c, s, id))
    decreases MAX_DEPTH - |stack|
  {
    if Follows(s, id) {
      var rest := WalkChain(c, s, Before(s, id), stack + {id});
      chain := [id] + rest;
      assert chain[1..] == rest;
    } else {
      chain := [id];
    }
  }

  /** A well-formed chain is accepted from every stack that it avoids and that leaves room for it. */
  lemma {:induction false} ChainWalks(c: Context, s: Store, chain: seq<Id>, stack: set<Id>)
    requires Chain(c, s, chain) && |chain| + |stack| <= MAX_DEPTH
    requires forall x :: x in chain ==> x !in stack
    ensures Walk(c, s, chain[0], stack) == Accepted(Recorded(c, s, chain[0]))
  {
    if Follows(s, chain[0]) {
      forall x | x in chain[1..] ensures x !in stack + {chain[0]} {
        var j :| 0 <= j < |chain[1..]| && chain[1..][j] == x;
        ChainDistinct(c, s, chain, 0, j + 1);
      }
      ChainWalks(c, s, chain[1..], stack + {chain[0]});
    }
  }

  /** Authentication accepts exactly the well-formed chains of at most 256 outcomes. */
  lemma WalkExact(c: Context, s: Store, id: Id)
    ensures Walk(c, s, id, {}).Accepted? <==> exists chain :: Chain(c, s, chain) && chain[0] == id && |chain| <= MAX_DEPTH
  {
    if Walk(c, s, id, {}).Accepted? {
      var chain := WalkChain(c, s, id, {});
    }
    if exists chain :: Chain(c, s, chain) && chain[0] == id && |chain| <= MAX_DEPTH {
      var chain :| Chain(c, s, chain) && chain[0] == id && |chain| <= MAX_DEPTH;
      ChainWalks(c, s, chain, {});
    }
  }

  /** A request whose predecessors lead back to itself is refused, however the evidence looks. */
  lemma CycleRefused(c: Context, s: Store, path: seq<Id>)
    requires |path| >= 2 && path[0] == path[|path| - 1]
    requires forall i :: 0 <= i < |path| - 1 ==>
               path[i] in s.sources && path[i] in s.outcomes && Follows(s, path[i]) && Before(s, path[i]) == path[i + 1]
    ensures Walk(c, s, path[0], {}).Denied?
  {
    if Walk(c, s, path[0], {}).Accepted? {
      var chain := WalkChain(c, s, path[0], {});
      var n := if |chain| < |path| then |chain| - 1 else |path| - 1;
      PathAgrees(c, s, path, chain, n);
      if n == |path| - 1 { ChainDistinct(c, s, chain, 0, n); } else { ChainPresent(c, s, chain, n); }
    }
  }

  lemma {:induction false} PathAgrees(c: Context, s: Store, path: seq<Id>, chain: seq<Id>, n: nat)
    requires |path| > n && Chain(c, s, chain) && |chain| > n && chain[0] == path[0]
    requires forall i :: 0 <= i < |path| - 1 ==>
               path[i] in s.sources && path[i] in s.outcomes && Follows(s, path[i]) && Before(s, path[i]) == path[i + 1]
    ensures chain[n] == path[n]
  {
    if n > 0 {
      PathAgrees(c, s, path, chain, n - 1);
      ChainPresent(c, s, chain, n - 1);
    }
  }

  // -------------------------------------------------------- the memoised walk

  /** The memo holds exactly the requests of the chain from `id`, each with its own outcome. */
  ghost predicate MemoOf(c: Context, s: Store, id: Id, memo: map<Id, Outcome>) {
    exists chain :: Chain(c, s, chain) && chain[0] == id && MemoIs(c, s, chain, memo)
  }

  ghost predicate MemoIs(c: Context, s: Store, chain: seq<Id>, memo: map<Id, Outcome>) {
    forall x :: (x in memo <==> x in chain)
                && (x in memo ==> Present(c, s, x) && memo[x] == Recorded(c, s, x))
  }

  lemma MemoChain(c: Context, s: Store, id: Id, memo: map<Id, Outcome>) returns (chain: seq<Id>)
    requires MemoOf(c, s, id, memo)
    ensures Chain(c, s, chain) && chain[0] == id && MemoIs(c, s, chain, memo)
  {
    hide Exact, Binds, Recorded, MemoIs;
    chain :| Chain(c, s, chain) && chain[0] == id && MemoIs(c, s, chain, memo);
  }

  lemma MemoGrows(c: Context, s: Store, id: Id, memo: map<Id, Outcome>, stack: set<Id>)
    requires Walk(c, s, id, stack).Accepted?
    requires if Follows(s, id) then MemoOf(c, s, Before(s, id), memo) else memo == map[]
    ensures MemoOf(c, s, id, memo[id := Recorded(c, s, id)])
  {
    hide Exact, Binds, Recorded, Walk, Chain;
    var chain := WalkChain(c, s, id, stack);
    ChainSplits(c, s, id, chain);
    if Follows(s, id) {
      var rest := MemoChain(c, s, Before(s, id), memo);
      ChainUnique(c, s, rest, chain[1..]);
    }
    assert chain == [id] + chain[1..];
    assert MemoIs(c, s, chain, memo[id := Recorded(c, s, id)]);
  }

  lemma ChainSplits(c: Context, s: Store, id: Id, chain: seq<Id>)
    requires Chain(c, s, chain) && chain[0] == id
    ensures Present(c, s, id)
    ensures if Follows(s, id) then |chain| > 1 && Chain(c, s, chain[1..]) && chain[1] == Before(s, id) else chain == [id]
  {
  }

  /** `id` heads a well-formed chain, of whatever length. */
  ghost predicate Vouched(c: Context, s: Store, id: Id) {
    exists chain :: Chain(c, s, chain) && chain[0] == id
  }

  ghost predicate MemoSound(c: Context, s: Store, memo: map<Id, Outcome>) {
    forall x :: x in memo ==> Vouched(c, s, x) && Present(c, s, x) && memo[x] == Recorded(c, s, x)
  }

  /** One step of authentication carries a vouched predecessor over to `id`. */
  lemma VouchesNext(c: Context, s: Store, id: Id, before: Option<Outcome>)
    requires Present(c, s, id) && Exact(c, s, id, before)
    requires if Follows(s, id)
             then Present(c, s, Before(s, id)) && Vouched(c, s, Before(s, id)) && before == Some(Recorded(c, s, Before(s, id)))
             else before == None
    ensures Vouched(c, s, id)
  {
    hide Exact, Binds, Recorded;
    var rest: seq<Id> := [];
    if Follows(s, id) { rest :| Chain(c, s, rest) && rest[0] == Before(s, id); }
    var chain := [id] + rest;
    assert chain[1..] == rest;
    assert Chain(c, s, chain);
  }

  /** The two collections that the recursive authenticator keeps. */
  class Authenticator {
    const context: Context
    const store: Store
    var stack: set<Id>
    var authenticated: map<Id, Outcome>

    constructor (context: Context, store: Store)
      ensures this.context == context && this.store == store && stack == {} && authenticated == map[]
    {
      this.context, this.store, stack, authenticated := context, store, {}, map[];
    }

    /**
     Whatever a sound memo already holds, acceptance vouches for a well-formed chain. Started with an
     empty memo, as every authentication is, it agrees with the unmemoised walk, and on success it has
     recorded exactly the chain. The stack is always restored.
    */
    method Historical(id: Id) returns (r: Answer)
      requires MemoSound(context, store, authenticated)
      modifies this
      ensures stack == old(stack) && MemoSound(context, store, authenticated)
      ensures r.Accepted? ==> Vouched(context, store, id) && Present(context, store, id) && r.outcome == Recorded(context, store, id)
      ensures old(authenticated) == map[] ==> r == Walk(context, store, id, old(stack))
      ensures old(authenticated) == map[] && r.Accepted? ==> MemoOf(context, store, id, authenticated)
      decreases MAX_DEPTH - |stack|
    {
      hide Exact, Binds, Chain, MemoOf, Recorded, Vouched;
      if id in authenticated { return Accepted(authenticated[id]); }
      if id in stack { return Denied(Cycle); }
      if |stack| >= MAX_DEPTH { return Denied(TooDeep); }
      stack := stack + {id};
      r := Denied(Rejected);
      if Present(context, store, id) {
        var before: Option<Outcome> := None;
        if Follows(store, id) {
          r := Historical(Before(store, id));
          before := if r.Accepted? then Some(r.outcome) else None;
        }
        if !Follows(store, id) || before.Some? {
          r := Denied(Rejected);
          if Exact(context, store, id, before) {
            VouchesNext(context, store, id, before);
            if old(authenticated) == map[] { MemoGrows(context, store, id, authenticated, old(stack)); }
            r := Accepted(Recorded(context, store, id));
            authenticated := authenticated[id := r.outcome];
          }
        }
      }
      stack := stack - {id};
    }
  }
}
