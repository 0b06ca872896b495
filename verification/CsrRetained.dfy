/**
 The global check of retained history: every outcome authenticates, and the chain heads are exactly
 the active pointers. Accepting it forces the finalized outcomes of a service into one line.
*/
module CsrRetained {
  import opened Options
  import opened CsrRecords
  import opened CsrWalk

  /** All retained state; `policies` holds the host-local services of the current inventory. */
  datatype Pki = Pki(policies: map<string, Context>, stores: map<string, Store>)

  function Finalized(s: Store): set<Id> {
    set x | x in s.outcomes && s.outcomes[x].decision.verdict == Finalize
  }

  function Superseded(s: Store): set<Id> {
    set x | x in Finalized(s) && x in s.sources && Follows(s, x) :: Before(s, x)
  }

  function ActiveIds(s: Store): set<Id> {
    if s.active.Some? then {s.active.value.requestId} else {}
  }

  /** The active pointer names a finalized, authenticated outcome and repeats it field by field. */
  predicate ActiveAuthenticates(c: Context, s: Store)
    requires s.active.Some?
  {
    match Walk(c, s, s.active.value.requestId, {})
    case Denied(_) => false
    case Accepted(o) => o.verdict == Finalize && s.active.value == ActiveOf(c, o)
  }

  predicate OutcomesAuthenticate(c: Context, s: Store) {
    forall x :: x in s.sources ==> Walk(c, s, x, {}).Accepted?
  }

  predicate ServiceAccepted(c: Context, s: Store) {
    && s.sources.Keys == s.outcomes.Keys
    && OutcomesAuthenticate(c, s)
    && Finalized(s) - Superseded(s) == ActiveIds(s)
    && (s.active.Some? ==> ActiveAuthenticates(c, s))
  }

  predicate Disjoint(pki: Pki) {
    forall a, b, x :: a in pki.stores && b in pki.stores && a != b ==>
      !(x in pki.stores[a].sources && x in pki.stores[b].sources)
  }

  predicate RetainedAccepted(pki: Pki) {
    && (forall name :: name in pki.stores ==> name in pki.policies && ServiceAccepted(pki.policies[name], pki.stores[name]))
    && Disjoint(pki)
  }

  // ---------------------------------------------------------------- the line

  /** From a finalized outcome, every request of its chain is finalized too. */
  lemma {:induction false} ChainFinalized(c: Context, s: Store, chain: seq<Id>)
    requires Chain(c, s, chain) && chain[0] in Finalized(s)
    ensures forall x :: x in chain ==> x in Finalized(s)
  {
    if Follows(s, chain[0]) {
      ChainFinalized(c, s, chain[1..]);
      assert chain == [chain[0]] + chain[1..];
    }
  }

  /** Above a superseded outcome stands a finalized renewal whose history is one longer. */
  lemma Climb(c: Context, s: Store, x: Id, history: seq<Id>) returns (y: Id, longer: seq<Id>)
    requires OutcomesAuthenticate(c, s) && s.sources.Keys == s.outcomes.Keys
    requires x in Superseded(s) && Chain(c, s, history) && history[0] == x
    ensures y in Finalized(s) && Present(c, s, y) && Follows(s, y) && Before(s, y) == x
    ensures Chain(c, s, longer) && longer[0] == y && |longer| == |history| + 1 && |longer| <= MAX_DEPTH
  {
    hide Exact, Binds, Chain, Walk;
    y :| y in Finalized(s) && Follows(s, y) && Before(s, y) == x;
    longer := WalkChain(c, s, y, {});
    ChainSplits(c, s, y, longer);
    ChainUnique(c, s, history, longer[1..]);
  }

  /**
   Every finalized outcome is on the chain of the head: climbing from it to a successor lengthens its
   own history, which the depth bound allows only finitely often.
  */
  lemma {:induction false} OnTheLine(c: Context, s: Store, head: Id, line: seq<Id>, x: Id, history: seq<Id>)
    requires OutcomesAuthenticate(c, s) && s.sources.Keys == s.outcomes.Keys
    requires forall z :: z in Finalized(s) ==> z == head || z in Superseded(s)
    requires Chain(c, s, line) && line[0] == head
    requires x in Finalized(s) && Chain(c, s, history) && history[0] == x && |history| <= MAX_DEPTH
    ensures x in line
    decreases MAX_DEPTH - |history|
  {
    hide Exact, Binds, Chain, Walk, Present, Superseded, Finalized, OutcomesAuthenticate;
    if x != head {
      var y, longer := Climb(c, s, x, history);
      OnTheLine(c, s, head, line, y, longer);
      var i :| 0 <= i < |line| && line[i] == y;
      ChainPresent(c, s, line, i);
      assert line[i + 1] == x;
    } else {
      assert line[0] in line by { LineStarts(c, s, line); }
    }
  }

  /** The shape of the finalized outcomes of a service: one line from a single root to the active request. */
  ghost predicate OneLine(c: Context, s: Store, line: seq<Id>)
    requires s.active.Some?
  {
    && Chain(c, s, line)
    && line[0] == s.active.value.requestId
    && (forall x :: x in Finalized(s) <==> x in line)
    && (forall i, j :: 0 <= i < j < |line| ==> line[i] != line[j])
  }

  lemma HeadOrSuperseded(s: Store)
    requires Finalized(s) - Superseded(s) == ActiveIds(s)
    ensures forall z :: z in Finalized(s) ==> z in ActiveIds(s) || z in Superseded(s)
  {
    forall z | z in Finalized(s) ensures z in ActiveIds(s) || z in Superseded(s) {
      assert z in Finalized(s) - Superseded(s) || z in Superseded(s);
    }
  }

  lemma AcceptedIsOneLine(c: Context, s: Store) returns (line: seq<Id>)
    requires ServiceAccepted(c, s) && s.active.Some?
    ensures OneLine(c, s, line) && |line| <= MAX_DEPTH
  {
    var head := s.active.value.requestId;
    HeadOrSuperseded(s);
    line := WalkChain(c, s, head, {});
    ChainFinalized(c, s, line);
    forall x | x in Finalized(s) ensures x in line {
      var history := WalkChain(c, s, x, {});
      OnTheLine(c, s, head, line, x, history);
    }
    forall i, j | 0 <= i < j < |line| ensures line[i] != line[j] { ChainDistinct(c, s, line, i, j); }
  }

  /** Without an active pointer nothing is finalized: from any finalized outcome one could climb for ever. */
  lemma {:induction false} NoneFinalized(c: Context, s: Store, x: Id, history: seq<Id>)
    requires OutcomesAuthenticate(c, s) && s.sources.Keys == s.outcomes.Keys
    requires forall z :: z in Finalized(s) ==> z in Superseded(s)
    requires x in Finalized(s) && Chain(c, s, history) && history[0] == x && |history| <= MAX_DEPTH
    ensures false
    decreases MAX_DEPTH - |history|
  {
    hide Exact, Binds, Chain, Walk, Present, Superseded, Finalized, OutcomesAuthenticate;
    var y, longer := Climb(c, s, x, history);
    NoneFinalized(c, s, y, longer);
  }

  lemma LineStarts(c: Context, s: Store, line: seq<Id>)
    requires Chain(c, s, line)
    ensures line != []
  {
  }

  /** Two finalized renewals of the same predecessor. */
  predicate SameSuccessors(s: Store, x: Id, y: Id) {
    && x in Finalized(s) && y in Finalized(s) && x in s.sources && y in s.sources
    && Follows(s, x) && Follows(s, y) && Before(s, x) == Before(s, y)
  }

  lemma NoFork(c: Context, s: Store, line: seq<Id>, x: Id, y: Id)
    requires s.active.Some? && OneLine(c, s, line) && SameSuccessors(s, x, y)
    ensures x == y
  {
    var i :| 0 <= i < |line| && line[i] == x;
    var j :| 0 <= j < |line| && line[j] == y;
    ChainPresent(c, s, line, i);
    ChainPresent(c, s, line, j);
    assert line[i + 1] == line[j + 1];
  }

  /**
   Acceptance leaves a service with no finalized outcome and no pointer, or with one line: a single
   root that is an issue or a migration, no fork, and the pointer at its end.
  */
  lemma AcceptedHistory(c: Context, s: Store)
    requires ServiceAccepted(c, s)
    ensures s.active.None? <==> Finalized(s) == {}
    ensures s.active.Some? ==>
              && (exists line :: OneLine(c, s, line))
              && (exists root :: root in Finalized(s) && !Follows(s, root)
                                 && forall x :: x in Finalized(s) && !Follows(s, x) ==> x == root)
              && (forall x, y :: SameSuccessors(s, x, y) ==> x == y)
  {
    hide Walk, Chain, Exact, Binds;
    if s.active.Some? {
      var line := AcceptedIsOneLine(c, s);
      assert line[0] in Finalized(s) by { LineStarts(c, s, line); }
      var root := line[|line| - 1];
      ChainPresent(c, s, line, |line| - 1);
      forall x | x in Finalized(s) && !Follows(s, x) ensures x == root {
        var i :| 0 <= i < |line| && line[i] == x;
        ChainPresent(c, s, line, i);
      }
      forall x, y | SameSuccessors(s, x, y) ensures x == y { NoFork(c, s, line, x, y); }
    } else if Finalized(s) != {} {
      var x :| x in Finalized(s);
      HeadOrSuperseded(s);
      var history := WalkChain(c, s, x, {});
      NoneFinalized(c, s, x, history);
    }
  }

  // ----------------------------------------------------------- the check

  /** `superseded` holds the predecessors of the renewals among `finalized`. */
  ghost predicate Supersedes(s: Store, finalized: set<Id>, superseded: set<Id>)
    requires finalized <= s.sources.Keys && finalized <= s.outcomes.Keys
  {
    && (forall x :: x in finalized && Follows(s, x) ==> Before(s, x) in superseded)
    && (forall y :: y in superseded ==> exists x :: x in finalized && Follows(s, x) && Before(s, x) == y)
  }

  /** The first part of a service's check: its candidates, one after the other. */
  method CollectHeads(c: Context, s: Store) returns (ok: bool, heads: set<Id>)
    ensures ok == (s.sources.Keys == s.outcomes.Keys && OutcomesAuthenticate(c, s))
    ensures ok ==> heads == Finalized(s) - Superseded(s)
  {
    hide Walk, MemoOf, MemoSound, Vouched, Exact, Binds;
    heads := {};
    if !(s.outcomes.Keys <= s.sources.Keys) { return false, heads; }
    var finalized: set<Id>, superseded: set<Id> := {}, {};
    var todo := s.sources.Keys;
    while todo != {}
      invariant todo <= s.sources.Keys
      invariant forall x :: x in s.sources && x !in todo ==> x in s.outcomes && Walk(c, s, x, {}).Accepted?
      invariant finalized == Finalized(s) - todo
      invariant Supersedes(s, finalized, superseded)
      decreases todo
    {
      var x :| x in todo;
      if x !in s.outcomes { return false, heads; }
      var a := Authenticate(c, s, x);
      if a.Denied? { return false, heads; }
      if a.outcome.verdict == Finalize {
        finalized := finalized + {x};
        if Follows(s, x) { superseded := superseded + {Before(s, x)}; }
      }
      todo := todo - {x};
    }
    assert finalized == Finalized(s);
    assert superseded == Superseded(s);
    return true, finalized - superseded;
  }

  /** A fresh authentication of one request. */
  method Authenticate(c: Context, s: Store, x: Id) returns (a: Answer)
    ensures a == Walk(c, s, x, {})
    ensures a.Accepted? ==> x in s.outcomes && a.outcome.verdict == s.outcomes[x].decision.verdict
  {
    var authenticator := new Authenticator(c, s);
    a := authenticator.Historical(x);
  }

  method CheckService(c: Context, s: Store) returns (ok: bool)
    ensures ok == ServiceAccepted(c, s)
  {
    hide Walk, OutcomesAuthenticate, Finalized, Superseded;
    var fine, heads := CollectHeads(c, s);
    if !fine { return false; }
    if s.active.Some? {
      var a := Authenticate(c, s, s.active.value.requestId);
      if a.Denied? || a.outcome.verdict != Finalize || s.active.value != ActiveOf(c, a.outcome) { return false; }
    }
    return heads == ActiveIds(s);
  }

  ghost predicate AcceptedSoFar(pki: Pki, done: set<string>) {
    && (forall n :: n in pki.stores && n in done ==> n in pki.policies && ServiceAccepted(pki.policies[n], pki.stores[n]))
    && (forall a, b, x :: a in pki.stores && b in pki.stores && a in done && b in done && a != b ==>
          !(x in pki.stores[a].sources && x in pki.stores[b].sources))
  }

  ghost predicate Seen(pki: Pki, done: set<string>, seen: set<Id>) {
    forall x :: x in seen <==> exists n :: n in done && n in pki.stores && x in pki.stores[n].sources
  }

  lemma AcceptsOneMore(pki: Pki, done: set<string>, seen: set<Id>, name: string)
    requires AcceptedSoFar(pki, done) && Seen(pki, done, seen) && name in pki.stores && name !in done
    ensures AcceptedSoFar(pki, done + {name})
        <==> && name in pki.policies && ServiceAccepted(pki.policies[name], pki.stores[name])
             && pki.stores[name].sources.Keys !! seen
    ensures Seen(pki, done + {name}, seen + pki.stores[name].sources.Keys)
  {
    hide ServiceAccepted;
    if x :| x in pki.stores[name].sources.Keys && x in seen {
      var n :| n in done && n in pki.stores && x in pki.stores[n].sources;
      assert n in done + {name} && name in done + {name} && n != name;
    }
  }

  lemma RefusedForAll(pki: Pki, done: set<string>)
    requires done <= pki.stores.Keys
    ensures RetainedAccepted(pki) ==> AcceptedSoFar(pki, done)
    ensures done == pki.stores.Keys ==> RetainedAccepted(pki) == AcceptedSoFar(pki, done)
  {
    hide ServiceAccepted;
  }

  method CheckRetained(pki: Pki) returns (ok: bool)
    ensures ok == RetainedAccepted(pki)
  {
    hide ServiceAccepted, AcceptedSoFar, RetainedAccepted;
    var todo, seen: set<Id> := pki.stores.Keys, {};
    ghost var done: set<string> := {};
    assert AcceptedSoFar(pki, {}) by { NothingAccepted(pki); }
    while todo != {}
      invariant todo + done == pki.stores.Keys && todo !! done
      invariant AcceptedSoFar(pki, done) && Seen(pki, done, seen)
      decreases todo
    {
      var name :| name in todo;
      AcceptsOneMore(pki, done, seen, name);
      RefusedForAll(pki, done + {name});
      if name !in pki.policies { return false; }
      var ids := pki.stores[name].sources.Keys;
      if !(ids !! seen) { return false; }
      var fine := CheckService(pki.policies[name], pki.stores[name]);
      if !fine { return false; }
      seen, todo, done := seen + ids, todo - {name}, done + {name};
    }
    RefusedForAll(pki, done);
    return true;
  }

  lemma NothingAccepted(pki: Pki)
    ensures AcceptedSoFar(pki, {})
  {
  }
}
