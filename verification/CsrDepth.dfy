/**
 Histories of every length up to one link beyond the depth bound: the first request is issued, every later
 one renews the one before it. The last of them is finalized like the others and strands the service.
*/
module CsrDepth {
  import opened Options
  import opened CsrRecords
  import opened CsrWalk
  import opened CsrRetained
  import opened CsrLifecycle

  function Name(n: nat): Id { seq(n + 1, _ => 'r') }

  lemma NamesDiffer(m: nat, n: nat)
    requires Name(m) == Name(n)
    ensures m == n
  {
    assert |Name(m)| == |Name(n)|;
  }

  const EMPTY := Store(map[], map[], None, None)

  function Candidate(c: Context, n: nat): Source {
    Source(c.service, c.target, Name(n), "nonce", if n == 0 then Issue else Renew,
           "request", "response", "signature", "candidate", "artifact", Name(n), "spki", "chain", "fullchain", "intermediate",
           if n == 0 then NONE else Name(n - 1))
  }

  /** Evidence that the candidate is installed and served, created at moment 0. */
  function Installed(c: Context, n: nat): Evidence {
    var s := Candidate(c, n);
    Evidence(Deployment(c.service, c.target, c.target, s.requestId, s.requestId, s.nonce, s.operation, Finalize,
                        s.request, s.response, s.responseSignature, s.candidate, s.artifact,
                        s.certificate, s.spki, s.chain, s.fullchain, s.certificate, s.spki, true,
                        s.certificate, s.intermediate, c.boundary, Activated, Passed, if n == 0 then NoRollback else Retained,
                        0, 1, Some(0), Some(0), if n == 0 then None else Some(c.holdSeconds)),
             "sha", "signature", "deployers")
  }

  function Link(c: Context, n: nat): Step { Decide(Name(n), Finalize, Installed(c, n), 0) }

  /** The store after the first `n` requests are retained and finalized. */
  function History(c: Context, n: nat): Store
    decreases n, 0
  {
    if n == 0 then EMPTY else After(c, Asked(c, n - 1), Link(c, n - 1))
  }

  /** And one more is retained. */
  function Asked(c: Context, n: nat): Store
    decreases n, 1
  {
    After(c, History(c, n), Retain(Candidate(c, n)))
  }

  function Steps(c: Context, n: nat): seq<Step> {
    if n == 0 then [] else Steps(c, n - 1) + [Retain(Candidate(c, n - 1)), Link(c, n - 1)]
  }

  function Line(n: nat): (line: seq<Id>)
    ensures |line| == n && (n > 0 ==> line[0] == Name(n - 1))
  {
    if n == 0 then [] else [Name(n - 1)] + Line(n - 1)
  }

  /** After `n` links: one line, headed by the request whose certificate the next one renews. */
  ghost predicate Grown(c: Context, n: nat) {
    var s := History(c, n);
    && Linear(c, s, Line(n)) && (n == 0 <==> s.active.None?)
    && (forall id :: id in s.sources ==> exists m: nat :: m < n && id == Name(m))
    && (n > 0 ==> Name(n - 1) in s.sources && s.sources[Name(n - 1)] == Candidate(c, n - 1))
  }

  lemma NextIsNew(c: Context, n: nat)
    requires Grown(c, n)
    ensures Name(n) !in History(c, n).sources && Name(n) !in History(c, n).outcomes
  {
    hide Name, History, Headed, OutcomesVouched;
    if Name(n) in History(c, n).sources {
      var m: nat :| m < n && Name(n) == Name(m);
      NamesDiffer(m, n);
    }
  }

  lemma AskedState(c: Context, n: nat)
    requires Grown(c, n)
    ensures var s := History(c, n);
            && Asked(c, n) == s.(sources := s.sources[Name(n) := Candidate(c, n)])
            && Name(n) !in s.outcomes && Linear(c, Asked(c, n), Line(n))
  {
    hide Linear, Name, History;
    NextIsNew(c, n);
    RetainLinear(c, History(c, n), Line(n), Candidate(c, n));
  }

  /** The pointer reads as long as the line fits, and the next request finds its predecessor at its head. */
  lemma Proposes(c: Context, n: nat)
    requires Grown(c, n) && n <= MAX_DEPTH
    ensures ActiveReads(c, Asked(c, n)) && NewPredecessor(c, Asked(c, n), Candidate(c, n)).Some?
  {
    hide Walk, Chain, Exact, Binds, Name, History, Asked, OutcomesVouched, SourcesFit;
    AskedState(c, n);
    NextIsNew(c, n);
    if n > 0 {
      PointerIsHead(c, Asked(c, n), Line(n));
      HeadResults(c, Asked(c, n), Line(n));
    }
  }

  lemma InstalledIsFresh(c: Context, n: nat, p: Predecessor)
    ensures FreshDeployment(c, Installed(c, n).deployment, Candidate(c, n), Finalize, p, 0)
  {
    hide Name;
  }

  /** Every link up to the bound and one beyond it is published. */
  lemma LinkPublished(c: Context, n: nat)
    requires Grown(c, n) && n <= MAX_DEPTH
    ensures Accepts(c, Asked(c, n), Name(n), Finalize, Installed(c, n), 0, History(c, n + 1))
    ensures History(c, n + 1) == Publish(c, Asked(c, n), Name(n), Finalize, Installed(c, n),
                                         NewPredecessor(c, Asked(c, n), Candidate(c, n)).value)
  {
    hide Walk, FreshDeployment, ActiveReads, NewPredecessor, Linear, Name, Installed, Publish, Asked;
    AskedState(c, n);
    Proposes(c, n);
    InstalledIsFresh(c, n, NewPredecessor(c, Asked(c, n), Candidate(c, n)).value);
  }

  lemma GrowsByOne(c: Context, n: nat)
    requires Grown(c, n) && n <= MAX_DEPTH
    ensures Grown(c, n + 1)
  {
    hide Walk, FreshDeployment, ActiveReads, NewPredecessor, Linear, Name, Installed, Asked, Accepts, Chain, Present, Grows, History, Candidate;
    AskedState(c, n);
    LinkPublished(c, n);
    PublishedState(c, Asked(c, n), Line(n), Name(n), Finalize, Installed(c, n), 0, History(c, n + 1));
    assert History(c, n + 1).sources == History(c, n).sources[Name(n) := Candidate(c, n)];
  }

  lemma {:induction false} HistoryGrown(c: Context, n: nat)
    requires n <= MAX_DEPTH + 1
    ensures Grown(c, n)
  {
    hide Linear, Name, Asked;
    if n == 0 {
      FreshLinear(c, EMPTY);
    } else {
      HistoryGrown(c, n - 1);
      GrowsByOne(c, n - 1);
    }
  }

  lemma {:induction false} RunAppends(c: Context, s: Store, steps: seq<Step>, more: seq<Step>)
    ensures Run(c, s, steps + more) == Run(c, Run(c, s, steps), more)
    decreases |steps|
  {
    hide After;
    if steps == [] {
      assert steps + more == more;
    } else {
      assert (steps + more)[1..] == steps[1..] + more;
      RunAppends(c, After(c, s, steps[0]), steps[1..], more);
    }
  }

  lemma RunsTwo(c: Context, s: Store, first: Step, second: Step)
    ensures Run(c, s, [first, second]) == After(c, After(c, s, first), second)
  {
    hide After;
    assert [first, second][1..] == [second];
    assert Run(c, After(c, s, first), [second]) == Run(c, After(c, After(c, s, first), second), []);
  }

  lemma {:induction false} StepsReach(c: Context, n: nat)
    ensures Run(c, EMPTY, Steps(c, n)) == History(c, n)
  {
    hide After;
    if n > 0 {
      var two := [Retain(Candidate(c, n - 1)), Link(c, n - 1)];
      StepsReach(c, n - 1);
      RunAppends(c, EMPTY, Steps(c, n - 1), two);
      RunsTwo(c, History(c, n - 1), two[0], two[1]);
    }
  }

  /**
   In every service that starts empty, a run of ordinary decisions finalizes 257 requests, each published. The
   pointer does not read after the last one, and whatever happens later nothing is decided or accepted any more.
  */
  lemma BoundExceeded(c: Context, later: seq<Step>)
    ensures Fresh(EMPTY)
    ensures forall n: nat :: n <= MAX_DEPTH ==>
              Decided(c, Asked(c, n), Name(n), Finalize, Installed(c, n), 0) == (History(c, n + 1), Published)
    ensures var t := Run(c, EMPTY, Steps(c, MAX_DEPTH + 1));
            && t == History(c, MAX_DEPTH + 1) && !ActiveReads(c, t)
            && var u := Run(c, t, later);
               && u.outcomes == t.outcomes && u.active == t.active && !ServiceAccepted(c, u)
               && forall id, verdict, e, now :: Decided(c, u, id, verdict, e, now).1 == Refused
  {
    hide Walk, Chain, Linear, Decided, ActiveReads, ServiceAccepted, Run, History, Asked, Steps, Line;
    forall n: nat | n <= MAX_DEPTH
      ensures Decided(c, Asked(c, n), Name(n), Finalize, Installed(c, n), 0) == (History(c, n + 1), Published)
    {
      HistoryGrown(c, n);
      LinkPublished(c, n);
    }
    StepsReach(c, MAX_DEPTH + 1);
    HistoryGrown(c, MAX_DEPTH + 1);
    var t := History(c, MAX_DEPTH + 1);
    PointerRefused(c, t, Line(MAX_DEPTH + 1));
    TooDeepStrands(c, t, Line(MAX_DEPTH + 1), later);
  }
}
