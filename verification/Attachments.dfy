/**
 One reconciliation of a network attachment: what the worker concludes from the
 claimed row, the instance owner's answer and the provider's observation.
 */
module Attachments {
  import opened Text
  import opened Evidence
  import Uuid

  datatype State = Reserved | Attached | Releasing | Released

  /** The states only ever advance in this order. */
  function Rank(s: State): nat {
    match s
    case Reserved => 0
    case Attached => 1
    case Releasing => 2
    case Released => 3
  }

  datatype Reason =
    | NoReason
    | ConsumerUnclosed
    | ConsumerUnavailable
    | ProtocolViolation
    | ProviderMissing
    | CleanupPending
    | ProviderUnavailable
    | ProviderRejected
    | ProviderOwnership
    | ResourceInUse
    | ProviderUnknown

  datatype ProviderFailure = Temporary | InUse | Reject | Conflict | Uncertain

  function ProviderReason(k: ProviderFailure): (r: Reason) {
    match k
    case Temporary => ProviderUnavailable
    case Reject => ProviderRejected
    case Conflict => ProviderOwnership
    case InUse => ResourceInUse
    case Uncertain => ProviderUnknown
  }

  /** The immutable part of an attachment. */
  datatype Identity = Identity(id: string, tenantID: string, instanceID: string, submissionID: string,
                               generation: int, clusterID: string, namespace: string)

  datatype Attachment = Attachment(identity: Identity, state: State, reason: Reason, version: nat,
                                   podName: string, podUID: string, confirmUID: string, finalizationID: string)

  /** The cards and addresses ever attributed to the attachment, by UID: the provider relations column. */
  datatype Relations = Relations(cards: set<string>, addresses: set<string>)

  const NO_RELATIONS := Relations({}, {})

  /** A claimed row, as the worker carries it through one Step. */
  datatype Work = Work(requirement: Requirement, now: Time, requireFresh: bool, attachment: Attachment,
                       relations: Relations, consumerPodUIDs: seq<string>, blocked: bool, owner: string, epoch: nat)

  datatype Progress = Progress(proof: Proof, backoff: bool, state: State, reason: Reason, podName: string,
                               podUID: string, finalizationID: string, relations: Relations, observed: bool, blocked: bool)

  datatype Observed = Observed(proof: Proof, present: bool, hasDependencies: bool, podName: string, podUID: string,
                               relations: Relations)

  /** What `ObserveAttachment` returns. */
  datatype Observation = Seen(value: Observed) | Failed(kind: ProviderFailure)

  /** Unrecognised stands for every state the owner may name outside the protocol. */
  datatype SubmissionState = Open | Closing | Closed | Unrecognised

  datatype Submission = Submission(protocolVersion: int, identity: Identity, state: SubmissionState,
                                   finalizationID: string, podUIDs: seq<string>, closedAt: Option<Time>)

  /** What `GetSubmission` returns. */
  datatype Answer = Said(value: Submission) | Unanswered

  /** The owner's answer speaks about this very attachment, consistently with what is already bound. */
  predicate ValidConsumer(a: Attachment, c: Submission) {
    && |c.podUIDs| <= 1
    && "" !in c.podUIDs
    && c.protocolVersion == 1
    && c.identity == a.identity
    && c.state != Unrecognised
    && (a.finalizationID == "" || c.finalizationID == a.finalizationID)
    && (c.state == Open || Uuid.Valid(c.finalizationID))
    && (c.state == Closed ==> c.closedAt.Some? && c.closedAt.value != 0)
  }

  /** The check as written: early exits, with a loop over the reported Pod identities. */
  method CheckConsumer(a: Attachment, c: Submission) returns (ok: bool)
    ensures ok == ValidConsumer(a, c)
  {
    if |c.podUIDs| > 1 { return false; }
    for i := 0 to |c.podUIDs|
      invariant "" !in c.podUIDs[..i]
    {
      if c.podUIDs[i] == "" { return false; }
    }
    assert c.podUIDs[..|c.podUIDs|] == c.podUIDs;
    if c.protocolVersion != 1 || c.identity.tenantID != a.identity.tenantID || c.identity.instanceID != a.identity.instanceID
       || c.identity.submissionID != a.identity.submissionID || c.identity.generation != a.identity.generation
       || c.identity.id != a.identity.id || c.identity.clusterID != a.identity.clusterID
       || c.identity.namespace != a.identity.namespace {
      return false;
    }
    if c.state != Open && c.state != Closing && c.state != Closed { return false; }
    if a.finalizationID != "" && c.finalizationID != a.finalizationID { return false; }
    if c.state != Open {
      var id := Uuid.Parse(c.finalizationID);
      if id.None? || Uuid.IsNil(id.value) { return false; }
    }
    return c.state != Closed || (c.closedAt.Some? && c.closedAt.value != 0);
  }

  predicate Valid(w: Work, c: Answer) { c.Said? && ValidConsumer(w.attachment, c.value) }

  predicate OwnerEnding(w: Work, c: Answer) {
    Valid(w, c) && (c.value.state == Closing || c.value.state == Closed)
  }

  predicate OwnerClosed(w: Work, c: Answer) { Valid(w, c) && c.value.state == Closed }

  /** The claimed work enriched with a valid owner answer, before the provider is asked. */
  function Enrich(w: Work, c: Answer): (r: Work) {
    if Valid(w, c) then
      w.(consumerPodUIDs := c.value.podUIDs, requireFresh := c.value.state == Closed && w.attachment.state != Released)
    else w
  }

  // -------- the outcome, field by field --------

  /** The observed Pod contradicts the identity already bound. */
  predicate Contradicts(a: Attachment, o: Observed) {
    o.present && (o.podUID == "" || (a.podUID != "" && a.podUID != o.podUID) || (a.confirmUID != "" && a.confirmUID != o.podUID))
  }

  predicate Usable(a: Attachment, o: Observation) { o.Seen? && !Contradicts(a, o.value) }

  predicate Residual(o: Observed) { o.present || o.hasDependencies }

  function NextPodUID(a: Attachment, o: Observation): string {
    if Usable(a, o) && o.value.present then o.value.podUID else a.podUID
  }

  /** A closed owner must acknowledge the Pod that is on record. */
  predicate Acknowledged(w: Work, c: Answer, o: Observation)
    requires c.Said?
  {
    NextPodUID(w.attachment, o) == "" || NextPodUID(w.attachment, o) in c.value.podUIDs
  }

  /** Everything that registers a protocol violation, once and for all. */
  predicate Violates(w: Work, c: Answer, o: Observation) {
    match o
    case Failed(kind) => kind == Conflict
    case Seen(seen) =>
      || Contradicts(w.attachment, seen)
      || (w.attachment.state == Released && Residual(seen))
      || (c.Said? && !Valid(w, c))
      || (OwnerClosed(w, c) && !Acknowledged(w, c, o))
  }

  predicate NextBlocked(w: Work, c: Answer, o: Observation) { w.blocked || Violates(w, c, o) }

  /** The owner is closed and acknowledges the Pod, nothing is left, and nothing is contested. */
  predicate Releases(w: Work, c: Answer, o: Observation) {
    Usable(w.attachment, o) && OwnerClosed(w, c) && !Residual(o.value) && !NextBlocked(w, c, o)
  }

  function NextState(w: Work, c: Answer, o: Observation): State {
    if Releases(w, c, o) || w.attachment.state == Released then Released
    else if Usable(w.attachment, o) && OwnerEnding(w, c) then Releasing
    else if Usable(w.attachment, o) && o.value.present && w.attachment.state == Reserved then Attached
    else w.attachment.state
  }

  function NextFinalization(w: Work, c: Answer, o: Observation): string {
    if Usable(w.attachment, o) && OwnerEnding(w, c) && w.attachment.state != Released then c.value.finalizationID
    else w.attachment.finalizationID
  }

  /** The reason shown when nothing is contested. */
  function PlainReason(w: Work, c: Answer, o: Observed): Reason {
    var a := w.attachment;
    var before := if o.present then NoReason else a.reason;
    if c.Unanswered? then
      if a.state == Releasing || (!o.present && a.state == Reserved) then ConsumerUnavailable else before
    else if OwnerEnding(w, c) then
      if Releases(w, c, Seen(o)) then NoReason
      else if a.state == Released then before
      else if Residual(o) then CleanupPending
      else ConsumerUnclosed
    else if a.state == Releasing then ConsumerUnclosed
    else if !o.present && a.state == Attached then ProviderMissing
    else before
  }

  function NextReason(w: Work, c: Answer, o: Observation): Reason {
    if NextBlocked(w, c, o) then ProtocolViolation
    else match o
      case Failed(kind) => ProviderReason(kind)
      case Seen(seen) => PlainReason(w, c, seen)
  }

  /** A collection without a timestamp counts as taken when the row was claimed. */
  function NextProof(w: Work, o: Observed): Proof {
    if o.proof.collectedAt == 0 then Proof(w.now, "", w.requirement.requestedGeneration) else o.proof
  }

  const NO_PROOF := Proof(0, "", 0)

  /** The whole outcome of one reconciliation. */
  function Decide(w: Work, c: Answer, o: Observation): (p: Progress) {
    Progress(
      if o.Seen? then NextProof(w, o.value) else NO_PROOF,
      o.Failed? || c.Unanswered?,
      NextState(w, c, o),
      NextReason(w, c, o),
      if Usable(w.attachment, o) && o.value.present then o.value.podName else w.attachment.podName,
      NextPodUID(w.attachment, o),
      NextFinalization(w, c, o),
      if o.Seen? then o.value.relations else w.relations,
      o.Seen?,
      NextBlocked(w, c, o))
  }

  /** The body of Step between the two port calls and the commit, as written: the progress
      record is rewritten branch by branch. */
  method Reconcile(work: Work, consumer: Answer, observation: Observation) returns (p: Progress)
    ensures p == Decide(work, consumer, observation)
  {
    var a := work.attachment;
    var proof, observed, blocked := NO_PROOF, false, work.blocked;
    var state, reason, relations := a.state, a.reason, work.relations;
    var podName, podUID, finalizationID := a.podName, a.podUID, a.finalizationID;
    var valid := false;
    if consumer.Said? { valid := CheckConsumer(a, consumer.value); }
    match observation {
      case Failed(kind) =>
        reason := ProviderReason(kind);
        if kind == Conflict {
          reason, blocked := ProtocolViolation, true;
        }
      case Seen(o) =>
        observed, proof := true, o.proof;
        if proof.collectedAt == 0 {
          proof := Proof(work.now, "", work.requirement.requestedGeneration);
        }
        relations := o.relations;
        if o.present && (o.podUID == "" || (a.podUID != "" && a.podUID != o.podUID) || (a.confirmUID != "" && a.confirmUID != o.podUID)) {
          reason, blocked := ProtocolViolation, true;
        } else {
          if o.present {
            podName, podUID := o.podName, o.podUID;
            if a.state == Reserved { state := Attached; }
            reason := NoReason;
          }
          if a.state == Released && (o.present || o.hasDependencies) {
            reason, blocked := ProtocolViolation, true;
          }
          if consumer.Unanswered? {
            if a.state == Releasing || (!o.present && a.state == Reserved) {
              reason := ConsumerUnavailable;
            }
          } else if !valid {
            reason, blocked := ProtocolViolation, true;
          } else if consumer.value.state == Closing || consumer.value.state == Closed {
            if a.state != Released {
              state, finalizationID, reason := Releasing, consumer.value.finalizationID, ConsumerUnclosed;
            }
            if podUID != "" && podUID !in consumer.value.podUIDs && consumer.value.state == Closed {
              reason, blocked := ProtocolViolation, true;
            } else if consumer.value.state == Closed && !o.present && !o.hasDependencies && !blocked {
              state, reason := Released, NoReason;
            }
            if o.present || o.hasDependencies {
              if a.state != Released { reason := CleanupPending; }
            }
          } else if a.state == Releasing {
            reason := ConsumerUnclosed;
          } else if !o.present && a.state == Attached {
            reason := ProviderMissing;
          }
        }
    }
    if blocked { reason := ProtocolViolation; }
    var backoff := observation.Failed? || consumer.Unanswered?;
    assert blocked == NextBlocked(work, consumer, observation);
    assert state == NextState(work, consumer, observation);
    assert reason == NextReason(work, consumer, observation);
    p := Progress(proof, backoff, state, reason, podName, podUID, finalizationID, relations, observed, blocked);
  }
}
