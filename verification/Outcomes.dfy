/**
 What one reconciliation concludes, said in the terms of the claimed row, the owner's answer and the
 observation alone: when it attaches, releases, contests, and which reason it shows.
 */
module Outcomes {
  import opened Text
  import opened Evidence
  import opened Attachments
  import opened Store
  import Uuid

  /** The observed Pod, if any, has a UID and is the one recorded and the one confirmed, as far as there are such. */
  predicate Fits(a: Attachment, o: Observed) {
    o.present ==> o.podUID != "" && a.podUID in {"", o.podUID} && a.confirmUID in {"", o.podUID}
  }

  predicate SameSubmission(a: Identity, c: Identity) {
    && a.id == c.id && a.tenantID == c.tenantID && a.instanceID == c.instanceID && a.submissionID == c.submissionID
    && a.generation == c.generation && a.clusterID == c.clusterID && a.namespace == c.namespace
  }

  /** What makes an owner's answer unusable. */
  predicate Faulty(a: Attachment, c: Submission) {
    || c.protocolVersion != 1 || !SameSubmission(a.identity, c.identity) || |c.podUIDs| > 1 || c.podUIDs == [""]
    || (c.state != Open && c.state != Closing && c.state != Closed)
    || (a.finalizationID != "" && c.finalizationID != a.finalizationID)
    || (c.state != Open && !Uuid.Valid(c.finalizationID))
    || (c.state == Closed && (c.closedAt == None || c.closedAt == Some(0)))
  }

  lemma FaultyIsInvalid(a: Attachment, c: Submission)
    ensures Faulty(a, c) <==> !ValidConsumer(a, c)
  {
    if |c.podUIDs| == 1 { assert "" in c.podUIDs <==> c.podUIDs == [""]; }
  }

  /** A usable answer that the owner is closing or closed. */
  predicate Ends(a: Attachment, c: Answer) { c.Said? && !Faulty(a, c.value) && c.value.state != Open }

  /** The Pod on record after this observation. */
  function RecordedPod(a: Attachment, o: Observed): string { if o.present then o.podUID else a.podUID }

  /** The Pod on record is one the owner names. */
  predicate Named(pod: string, c: Submission) { pod == "" || pod in c.podUIDs }

  // -------- contests --------

  /** Exactly these facts contest a row, and a contest is never lifted. */
  lemma ContestedExactly(w: Work, c: Answer, o: Observation)
    ensures var a := w.attachment;
            Decide(w, c, o).blocked <==>
              || w.blocked
              || (o.Failed? && o.kind == Conflict)
              || (o.Seen? && !Fits(a, o.value))
              || (o.Seen? && a.state == Released && (o.value.present || o.value.hasDependencies))
              || (o.Seen? && c.Said? && Faulty(a, c.value))
              || (o.Seen? && c.Said? && !Faulty(a, c.value) && c.value.state == Closed && !Named(RecordedPod(a, o.value), c.value))
    ensures Decide(w, c, o).blocked ==> Decide(w, c, o).reason == ProtocolViolation
  {
    if c.Said? { FaultyIsInvalid(w.attachment, c.value); }
  }

  // -------- states --------

  /** A reserved attachment whose Pod is seen is attached, unless its owner is ending; either way the Pod is bound. */
  lemma Attaches(w: Work, c: Answer, o: Observed)
    requires w.attachment.state == Reserved && o.present && Fits(w.attachment, o) && !Ends(w.attachment, c)
    ensures var p := Decide(w, c, Seen(o));
            p.state == Attached && p.podUID == o.podUID && p.podName == o.podName
            && p.finalizationID == w.attachment.finalizationID
  {
    if c.Said? { FaultyIsInvalid(w.attachment, c.value); }
  }

  /** An ending owner's finalization identity is bound, and the attachment is released exactly when the owner is
      closed and names the recorded Pod, nothing is left and nothing was contested; otherwise it is releasing. */
  lemma EndsExactly(w: Work, c: Answer, o: Observed)
    requires w.attachment.state != Released && Fits(w.attachment, o) && Ends(w.attachment, c)
    ensures var p, a := Decide(w, c, Seen(o)), w.attachment;
            && p.finalizationID == c.value.finalizationID
            && p.state == (if c.value.state == Closed && !o.present && !o.hasDependencies && !w.blocked && Named(a.podUID, c.value)
                           then Released else Releasing)
  {
    FaultyIsInvalid(w.attachment, c.value);
  }

  /** In every other case state and finalization identity stay; a Pod is bound exactly when one is seen that fits. */
  lemma OtherwiseStays(w: Work, c: Answer, o: Observation)
    requires var a := w.attachment;
             o.Failed? || !Fits(a, o.value) || a.state == Released || (!Ends(a, c) && !(a.state == Reserved && o.value.present))
    ensures Decide(w, c, o).state == w.attachment.state && Decide(w, c, o).finalizationID == w.attachment.finalizationID
  {
    if c.Said? { FaultyIsInvalid(w.attachment, c.value); }
  }

  lemma PodIsBound(w: Work, c: Answer, o: Observation)
    ensures var p, a := Decide(w, c, o), w.attachment;
            if o.Seen? && o.value.present && Fits(a, o.value) then p.podUID == o.value.podUID && p.podName == o.value.podName
            else p.podUID == a.podUID && p.podName == a.podName
  {
  }

  // -------- reasons --------

  /** A provider failure shows itself, unless the row is contested. */
  lemma FailureReasons(w: Work, c: Answer, kind: ProviderFailure)
    requires !w.blocked
    ensures Decide(w, c, Failed(kind)).reason ==
              match kind
              case Temporary => ProviderUnavailable
              case InUse => ResourceInUse
              case Reject => ProviderRejected
              case Uncertain => ProviderUnknown
              case Conflict => ProtocolViolation
  {
  }

  /** The observation went through and nothing contests the row. */
  predicate Calm(w: Work, c: Answer, o: Observed) { Fits(w.attachment, o) && !Decide(w, c, Seen(o)).blocked }

  /** An owner that does not answer matters while releasing, and while nothing is there yet. */
  lemma UnansweredReasons(w: Work, o: Observed)
    requires Calm(w, Unanswered, o)
    ensures var p, a := Decide(w, Unanswered, Seen(o)), w.attachment;
            p.reason == (if a.state == Releasing || (a.state == Reserved && !o.present) then ConsumerUnavailable
                         else if o.present then NoReason else a.reason)
  {
  }

  /** An open owner: a releasing attachment waits for it, an attached one misses its Pod, a seen Pod clears the reason. */
  lemma OpenReasons(w: Work, c: Answer, o: Observed)
    requires Calm(w, c, o) && c.Said? && c.value.state == Open
    ensures var p, a := Decide(w, c, Seen(o)), w.attachment;
            p.reason == (if a.state == Releasing then ConsumerUnclosed
                         else if o.present then NoReason
                         else if a.state == Attached then ProviderMissing else a.reason)
  {
  }

  /** An ending owner: what is left is being cleaned up, a closing owner is awaited, a release has no reason. */
  lemma EndingReasons(w: Work, c: Answer, o: Observed)
    requires Calm(w, c, o) && Ends(w.attachment, c)
    ensures var p, a := Decide(w, c, Seen(o)), w.attachment;
            p.reason == (if a.state == Released then (if c.value.state == Closed then NoReason else a.reason)
                         else if o.present || o.hasDependencies then CleanupPending
                         else if c.value.state == Closing then ConsumerUnclosed else NoReason)
  {
    FaultyIsInvalid(w.attachment, c.value);
  }

  // -------- demands and evidence --------

  /** Fresh relations are demanded exactly for a usable closed answer on a row not yet released, and the provider
      is told exactly the Pods of a usable answer. */
  lemma DemandsExactly(w: Work, c: Answer)
    requires !w.requireFresh && w.consumerPodUIDs == []
    ensures var e := Enrich(w, c);
            && (e.requireFresh <==> c.Said? && !Faulty(w.attachment, c.value) && c.value.state == Closed && w.attachment.state != Released)
            && e.consumerPodUIDs == (if c.Said? && !Faulty(w.attachment, c.value) then c.value.podUIDs else [])
            && e == w.(requireFresh := e.requireFresh, consumerPodUIDs := e.consumerPodUIDs)
  {
    if c.Said? { FaultyIsInvalid(w.attachment, c.value); }
  }

  /** Evidence is reported exactly for a successful observation, as collected or else as of the claim; back-off is
      asked for exactly when somebody did not answer. */
  lemma EvidenceIsCarried(w: Work, c: Answer, o: Observation)
    ensures var p := Decide(w, c, o);
            && (p.observed <==> o.Seen?) && (p.backoff <==> o.Failed? || c.Unanswered?)
            && (o.Seen? && o.value.proof.collectedAt != 0 ==> p.proof == o.value.proof)
            && (o.Seen? && o.value.proof.collectedAt == 0 ==>
                  p.proof.collectedAt == w.now && p.proof.hash == "" && p.proof.coveredGeneration == w.requirement.requestedGeneration)
            && p.relations == (if o.Seen? then o.value.relations else w.relations)
  {
  }

  // -------- what a commit writes --------

  /** A committed reconciliation writes the outcome, dates the evidence it applied, answers the notifications that
      evidence covered, gives the lease back and moves the version on by one. */
  lemma CommitWrites(r: Row, claim: Claim, c: Answer, o: Observation, now: Time)
    requires Atomically(r, claim, c, o, now).Committed?
    ensures var s, p := Atomically(r, claim, c, o, now).row, Decide(FreshWork(r, claim, c), c, o);
            && s.att.version == r.att.version + 1 && s.epoch == r.epoch && s.lease == None && s.requested == r.requested
            && s.att.identity == r.att.identity && s.att.confirmUID == r.att.confirmUID
            && s.att.state == p.state && s.att.reason == p.reason && s.att.podUID == p.podUID && s.att.podName == p.podName
            && (s.blocked <==> r.blocked || p.blocked)
            && (p.finalizationID == "" <==> s.att.finalizationID == "")
            && (p.finalizationID != "" && Uuid.Valid(p.finalizationID) ==> s.att.finalizationID == Uuid.Canonical(p.finalizationID))
  {
    var f := Decide(FreshWork(r, claim, c), c, o).finalizationID;
    if f != "" { assert |Uuid.Canonical(f)| == 36; }
  }

  lemma ObservedCommitWrites(r: Row, claim: Claim, c: Answer, o: Observed, now: Time)
    requires Atomically(r, claim, c, Seen(o), now).Committed?
    ensures var s, p := Atomically(r, claim, c, Seen(o), now).row, Decide(FreshWork(r, claim, c), c, Seen(o)).proof;
            && s.appliedAt == now && s.hash == p.hash && s.observedAt == p.collectedAt && s.relations == o.relations
            && s.processed == (if r.processed >= claim.requested then r.processed else claim.requested)
  {
  }

  lemma UnobservedCommitWrites(r: Row, claim: Claim, c: Answer, kind: ProviderFailure, now: Time)
    requires Atomically(r, claim, c, Failed(kind), now).Committed?
    ensures var s := Atomically(r, claim, c, Failed(kind), now).row;
            && s.appliedAt == r.appliedAt && s.hash == r.hash && s.observedAt == r.observedAt && s.relations == r.relations
            && s.processed == r.processed
  {
  }

  /** A reserved row over which a Step commits having seen its Pod is attached to that Pod. */
  lemma SeenPodAttaches(r: Row, claim: Claim, c: Answer, o: Observed, now: Time)
    requires r.att.state == Reserved && o.present && Fits(r.att, o) && !Ends(r.att, c)
    requires Atomically(r, claim, c, Seen(o), now).Committed?
    ensures var s := Atomically(r, claim, c, Seen(o), now).row;
            s.att.state == Attached && s.att.podUID == o.podUID && s.att.podName == o.podName
  {
    Attaches(FreshWork(r, claim, c), c, o);
  }
}
