/**
 Records of the certificate-request history of one service, and the checks on deployment evidence.

 A digest is an opaque string. `Context.digest` stands for the digest of a serialized decision.
*/
module CsrRecords {
  import opened Options

  type Id = string
  type Digest = string

  const NONE := "none"

  datatype Operation = Issue | Renew | Migrate
  datatype Verdict = Finalize | Abandon
  datatype Kind = NoPredecessor | HostLocal | Managed

  /** The immutable source of a decision: request, response, candidate and export artifact. */
  datatype Source = Source(
    service: string, target: string, requestId: Id, nonce: string, operation: Operation,
    request: Digest, response: Digest, responseSignature: Digest, candidate: Digest, artifact: Digest,
    certificate: Digest, spki: Digest, chain: Digest, fullchain: Digest, intermediate: Digest,
    currentCertificate: Digest)

  datatype Deployment = Deployment(
    service: string, target: string, principal: string, requestId: Id, artifactRequestId: Id, nonce: string,
    operation: Operation, action: Verdict,
    request: Digest, response: Digest, responseSignature: Digest, candidate: Digest, artifact: Digest,
    certificate: Digest, spki: Digest, chain: Digest, fullchain: Digest,
    localCertificate: Digest, localKeySpki: Digest, localMatch: bool,
    servedCertificate: Digest, servedIntermediate: Digest, boundary: Digest,
    result: Result, validationResult: ValidationResult, rollbackState: RollbackState,
    created: nat, expires: nat, activation: Option<nat>, validation: Option<nat>, hold: Option<nat>)

  datatype Result = Activated | NotActivated | RolledBack
  datatype ValidationResult = Passed | NotRun
  datatype RollbackState = NoRollback | Retained | Restored

  /** Signed deployment evidence as it is filed: the record and the digests of the filed bytes. */
  datatype Evidence = Evidence(deployment: Deployment, sha: Digest, signature: Digest, deployers: Digest)

  datatype Predecessor = Predecessor(
    kind: Kind, requestId: Id, certificate: Digest, spki: Digest, intermediate: Digest,
    response: Digest, artifact: Digest, deployment: Digest, decision: Digest)

  datatype Decision = Decision(
    verdict: Verdict, service: string, target: string, requestId: Id, operation: Operation,
    request: Digest, response: Digest, responseSignature: Digest, candidate: Digest, artifact: Digest,
    certificate: Digest, spki: Digest, chain: Digest, fullchain: Digest,
    deployment: Digest, deploymentSignature: Digest, deployers: Digest,
    predecessor: Predecessor, resulting: Id, created: nat)

  datatype Active = Active(
    service: string, target: string, requestId: Id, operation: Operation,
    certificate: Digest, spki: Digest, response: Digest, artifact: Digest, deployment: Digest, decision: Digest,
    activation: Option<nat>, hold: Option<nat>, updated: nat)

  datatype ManagedState = ManagedState(certificate: Digest, spki: Digest, intermediate: Digest)

  /** What authentication of one outcome yields. */
  datatype Outcome = Outcome(
    requestId: Id, operation: Operation, certificate: Digest, spki: Digest, intermediate: Digest,
    response: Digest, artifact: Digest, deployment: Digest, deploymentSignature: Digest, deployers: Digest,
    decision: Digest, activation: Option<nat>, hold: Option<nat>, updated: nat,
    verdict: Verdict, resulting: Id)

  datatype Filed = Filed(evidence: Evidence, decision: Decision)

  /** Everything retained for one service. */
  datatype Store = Store(
    sources: map<Id, Source>,
    outcomes: map<Id, Filed>,
    active: Option<Active>,
    managed: Option<ManagedState>)

  /** The inventory policy of one host-local service. */
  datatype Context = Context(service: string, target: string, boundary: Digest, holdSeconds: nat, digest: Decision -> Digest)

  // --------------------------------------------------------------- builders

  function EmptyPredecessor(): Predecessor {
    Predecessor(NoPredecessor, NONE, NONE, NONE, NONE, NONE, NONE, NONE, NONE)
  }

  function HostLocalPredecessor(o: Outcome): Predecessor {
    Predecessor(HostLocal, o.requestId, o.certificate, o.spki, o.intermediate, o.response, o.artifact, o.deployment, o.decision)
  }

  function ManagedPredecessor(m: ManagedState): Predecessor {
    EmptyPredecessor().(kind := Managed, certificate := m.certificate, spki := m.spki, intermediate := m.intermediate)
  }

  function Resulting(requestId: Id, verdict: Verdict, p: Predecessor): Id {
    if verdict == Finalize then requestId else if p.kind == HostLocal then p.requestId else NONE
  }

  /** The decision that the candidate command writes: from the source, its deployment evidence and its predecessor. */
  function DecisionFor(s: Source, e: Evidence, verdict: Verdict, p: Predecessor): Decision {
    Decision(verdict, s.service, s.target, s.requestId, s.operation,
             s.request, s.response, s.responseSignature, s.candidate, s.artifact,
             s.certificate, s.spki, s.chain, s.fullchain,
             e.sha, e.signature, e.deployers, p, Resulting(s.requestId, verdict, p), e.deployment.created)
  }

  /** What the authenticator recomputes: from the inventory, the request it was asked about and the filed evidence. */
  function ExpectedDecision(c: Context, id: Id, s: Source, e: Evidence, verdict: Verdict, p: Predecessor): Decision {
    Decision(verdict, c.service, c.target, id, s.operation,
             s.request, s.response, s.responseSignature, s.candidate, s.artifact,
             s.certificate, s.spki, s.chain, s.fullchain,
             e.sha, e.signature, e.deployers, p,
             if verdict == Finalize then id else if p.kind == HostLocal then p.requestId else NONE, e.deployment.created)
  }

  function ActiveFor(s: Source, e: Evidence, decision: Digest): Active {
    Active(s.service, s.target, s.requestId, s.operation, s.certificate, s.spki, s.response, s.artifact, e.sha, decision,
           e.deployment.activation, e.deployment.hold, e.deployment.created)
  }

  /** The active record that an authenticated outcome entitles to. */
  function ActiveOf(c: Context, o: Outcome): Active {
    Active(c.service, c.target, o.requestId, o.operation, o.certificate, o.spki, o.response, o.artifact, o.deployment,
           o.decision, o.activation, o.hold, o.updated)
  }

  function OutcomeOf(c: Context, s: Source, f: Filed): Outcome {
    var e, d := f.evidence, f.evidence.deployment;
    Outcome(s.requestId, s.operation, s.certificate, s.spki, s.intermediate, s.response, s.artifact,
            e.sha, e.signature, e.deployers, c.digest(f.decision), d.activation, d.hold, d.created,
            f.decision.verdict, f.decision.resulting)
  }

  // ----------------------------------------------------------------- checks

  /** The evidence names exactly this source. */
  predicate Binds(c: Context, s: Source, d: Deployment) {
    && d.requestId == s.requestId && d.artifactRequestId == s.requestId
    && d.service == c.service && d.target == c.target && d.principal == c.target
    && d.nonce == s.nonce && d.operation == s.operation
    && d.request == s.request && d.response == s.response && d.responseSignature == s.responseSignature
    && d.candidate == s.candidate && d.artifact == s.artifact
    && d.certificate == s.certificate && d.spki == s.spki && d.chain == s.chain && d.fullchain == s.fullchain
  }

  /** The fresh check's own binding of the evidence to the candidate. */
  predicate BindsFresh(c: Context, s: Source, d: Deployment, verdict: Verdict) {
    && d.nonce == s.nonce
    && d.requestId == s.requestId && d.artifactRequestId == s.requestId
    && d.service == c.service && d.target == c.target && d.principal == c.target
    && d.operation == s.operation && d.action == verdict
    && d.request == s.request && d.response == s.response && d.responseSignature == s.responseSignature
    && d.candidate == s.candidate && d.artifact == s.artifact
    && d.certificate == s.certificate && d.spki == s.spki && d.chain == s.chain && d.fullchain == s.fullchain
  }

  predicate InOrder(d: Deployment) {
    d.activation.Some? && d.validation.Some? && d.activation.value <= d.validation.value <= d.created + 300
  }

  /** `_validate_deployment`. */
  predicate ValidDeployment(c: Context, d: Deployment, s: Source, verdict: Verdict, p: Predecessor) {
    && d.created < d.expires && d.expires - d.created <= 86400
    && d.action == verdict
    && d.localCertificate == s.certificate && d.localKeySpki == s.spki && d.localMatch && d.boundary == c.boundary
    && match verdict
       case Finalize =>
         && d.result == Activated && d.servedCertificate == s.certificate && d.servedIntermediate == s.intermediate
         && d.validationResult == Passed && InOrder(d)
         && (if s.operation == Issue then d.rollbackState == NoRollback && d.hold == None
             else d.hold.Some? && d.rollbackState == Retained && d.hold.value >= d.created + c.holdSeconds)
       case Abandon =>
         if d.result == NotActivated then
           && d.servedCertificate == NONE && d.servedIntermediate == NONE && d.validationResult == NotRun
           && d.activation == None && d.validation == None && d.rollbackState == NoRollback && d.hold == None
         else
           && d.result == RolledBack && p.kind != NoPredecessor
           && d.servedCertificate == p.certificate && d.servedIntermediate == p.intermediate
           && d.validationResult == Passed && d.rollbackState == Restored && InOrder(d)
           && d.hold.Some? && d.hold.value >= d.created + c.holdSeconds
  }

  /** `authenticate_fresh_deployment`: binding, validity at this moment, and the common checks. */
  predicate FreshDeployment(c: Context, d: Deployment, s: Source, verdict: Verdict, p: Predecessor, now: nat) {
    && BindsFresh(c, s, d, verdict)
    && d.created < d.expires && d.expires - d.created <= 86400
    && d.created <= now + 300 && now <= d.expires + 300
    && ValidDeployment(c, d, s, verdict, p)
  }
}
