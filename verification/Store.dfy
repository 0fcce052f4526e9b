/**
 The durable attachment row: its claim, fenced finish, and the two caller requests,
 each as one transaction, with what every transaction keeps.
 */
module Store {
  import opened Text
  import opened Evidence
  import opened Attachments
  import Uuid

  datatype Lease = Lease(owner: string, until: Time)

  /** One row of `network_attachments`; `observedAt` 0 stands for NULL. */
  datatype Row = Row(att: Attachment, blocked: bool, relations: Relations, epoch: nat, lease: Option<Lease>,
                     requested: nat, processed: nat, appliedAt: Time, hash: string, observedAt: Time)

  predicate Ended(s: State) { s == Releasing || s == Released }

  /** The CHECK constraints of the table. */
  predicate Checks(r: Row) {
    && (r.att.podName == "" <==> r.att.podUID == "")
    && (r.att.confirmUID == "" || r.att.confirmUID == r.att.podUID)
    && (Ended(r.att.state) <==> r.att.finalizationID != "")
    && r.processed <= r.requested
    && r.att.version > 0
  }

  /** What holds of every reachable row. */
  predicate RowInv(r: Row) {
    && Checks(r)
    && (r.att.finalizationID != "" ==> Uuid.IsCanonical(r.att.finalizationID))
    && (r.att.state == Attached ==> r.att.podUID != "")
    && (r.blocked <==> r.att.reason == ProtocolViolation)
    && (r.lease.Some? ==> Uuid.IsCanonical(r.lease.value.owner))
  }

  /** A freshly prepared row. */
  predicate Prepared(r: Row) {
    && r.att.state == Reserved && r.att.reason == NoReason && r.att.version == 1
    && r.att.podName == r.att.podUID == r.att.confirmUID == r.att.finalizationID == ""
    && !r.blocked && r.epoch == 0 && r.lease.None? && r.requested == 1 && r.processed == 0 && r.hash == ""
  }

  /** How a row may differ from an earlier version of itself. */
  predicate Evolves(r: Row, s: Row) {
    && r.att.identity == s.att.identity
    && Rank(r.att.state) <= Rank(s.att.state)
    && (r.att.podUID != "" ==> s.att.podUID == r.att.podUID)
    && (r.att.confirmUID != "" ==> s.att.confirmUID == r.att.confirmUID)
    && (r.att.finalizationID != "" ==> s.att.finalizationID == r.att.finalizationID)
    && (r.blocked ==> s.blocked)
    && r.att.version <= s.att.version && r.epoch <= s.epoch
    && r.requested <= s.requested && r.processed <= s.processed
    && r.appliedAt <= s.appliedAt
  }

  // -------- claim --------

  predicate Claimable(r: Row, now: Time) { r.lease.None? || r.lease.value.until <= now }

  /** A UUID that the lease owner column takes; other layouts make the claim fail. */
  predicate Admissible(owner: string) { Uuid.Valid(owner) && Uuid.ColumnAccepts(owner) }

  /** A claim opens a new epoch; the lease owner is a UUID column. */
  function ClaimedRow(r: Row, owner: string, length: Time, now: Time): Row
    requires Admissible(owner)
  {
    r.(epoch := r.epoch + 1, lease := Some(Lease(Uuid.Canonical(owner), now + length)))
  }

  /** The work a claim hands out for a row it just updated. */
  function WorkOf(r: Row, owner: string, now: Time): Work {
    Work(Requirement(r.requested, r.appliedAt, r.hash), now, false, r.att, r.relations, [], r.blocked, owner, r.epoch)
  }

  // -------- finish --------

  datatype Finished = Committed(row: Row) | LeaseLost | DatabaseError

  function LeaseOwner(r: Row): string { if r.lease.Some? then r.lease.value.owner else "" }

  predicate Fenced(r: Row, w: Work) {
    r.att.version == w.attachment.version && r.epoch == w.epoch && LeaseOwner(r) == w.owner
  }

  predicate Advances(before: State, after: State) {
    || before == after
    || (before == Reserved && (after == Attached || after == Releasing || after == Released))
    || (before == Attached && (after == Releasing || after == Released))
    || (before == Releasing && after == Released)
  }

  function Max(a: nat, b: nat): nat { if a < b then b else a }
  function Min(a: nat, b: nat): nat { if a < b then a else b }

  function StoredFinalization(f: string): string {
    if f != "" && Uuid.Parse(f).Some? then Uuid.Canonical(f) else f
  }

  /** The row the UPDATE writes. */
  function Written(r: Row, w: Work, p: Progress, now: Time): Row {
    r.(att := r.att.(state := p.state, reason := p.reason, version := r.att.version + 1, podName := p.podName,
                     podUID := p.podUID, finalizationID := StoredFinalization(p.finalizationID)),
       blocked := r.blocked || p.blocked,
       relations := p.relations,
       observedAt := if p.observed then p.proof.collectedAt else r.observedAt,
       processed := Max(r.processed, if p.observed then Min(p.proof.coveredGeneration, w.requirement.requestedGeneration) else 0),
       hash := if p.observed then p.proof.hash else r.hash,
       appliedAt := if p.observed then now else r.appliedAt,
       lease := None)
  }

  /** `FinishAttachment`: the fence, the evidence, the allowed changes, then the UPDATE. */
  function Finish(r: Row, w: Work, p: Progress, now: Time): (f: Finished) {
    if !Fenced(r, w) then LeaseLost
    else if p.observed && !Covers(p.proof, w.requirement) then LeaseLost
    else if !Advances(r.att.state, p.state) || (r.att.podUID != "" && r.att.podUID != p.podUID)
            || (r.att.finalizationID != "" && r.att.finalizationID != p.finalizationID) then LeaseLost
    else if p.finalizationID != "" && !Uuid.ColumnAccepts(p.finalizationID) then DatabaseError
    else if Claimable(r, now) then LeaseLost
    else if !Checks(Written(r, w, p, now)) then DatabaseError
    else Committed(Written(r, w, p, now))
  }

  // -------- caller requests --------

  datatype Refusal = InvalidArgument | PlacementMismatch | AttachmentConflict | VersionConflict
  datatype Reply = Accepted(row: Row) | Refused(why: Refusal)

  predicate IsLabelChar(c: char) { 'a' <= c <= 'z' || '0' <= c <= '9' }

  /** `^[a-z0-9]([-a-z0-9]{0,61}[a-z0-9])?$` */
  predicate IsLabel(s: string) {
    && 1 <= |s| <= 63 && IsLabelChar(s[0]) && IsLabelChar(s[|s| - 1])
    && forall i :: 0 <= i < |s| ==> IsLabelChar(s[i]) || s[i] == '-'
  }

  datatype ConfirmRequest = ConfirmRequest(clusterID: string, namespace: string, podName: string, podUID: string, expectedVersion: int)

  function Confirm(r: Row, q: ConfirmRequest): (reply: Reply) {
    if q.podUID == "" || |q.podUID| > 128 || !IsLabel(q.podName) || q.expectedVersion < 1 then Refused(InvalidArgument)
    else if q.clusterID != r.att.identity.clusterID || q.namespace != r.att.identity.namespace then Refused(PlacementMismatch)
    else if r.att.podUID == q.podUID && r.att.podName == q.podName then Accepted(r)
    else if r.att.podUID != "" || r.att.confirmUID != "" then Refused(AttachmentConflict)
    else if r.att.state != Reserved then Refused(AttachmentConflict)
    else if r.att.version != q.expectedVersion then Refused(VersionConflict)
    else Accepted(r.(att := r.att.(podName := q.podName, podUID := q.podUID, confirmUID := q.podUID, version := r.att.version + 1),
                     lease := None))
  }

  datatype ReleaseRequest = ReleaseRequest(finalizationID: string, expectedVersion: int)

  function Release(r: Row, q: ReleaseRequest): (reply: Reply) {
    if !Uuid.IsCanonical(q.finalizationID) || q.expectedVersion < 1 then Refused(InvalidArgument)
    else if r.att.finalizationID != "" then
      if r.att.finalizationID != q.finalizationID then Refused(AttachmentConflict) else Accepted(r)
    else if r.att.version != q.expectedVersion then Refused(VersionConflict)
    else Accepted(r.(att := r.att.(finalizationID := q.finalizationID, state := Releasing, version := r.att.version + 1),
                     lease := None))
  }

  // -------- the row on its own, one transaction at a time --------

  /** When and by whom a reconciliation's work was claimed. */
  datatype Claim = Claim(owner: string, at: Time, requested: nat)

  datatype Event =
    | Idle
    | Claimed(owner: string, length: Time, now: Time)
    | Notified
    | Confirmed(confirm: ConfirmRequest)
    | ReleaseAsked(release: ReleaseRequest)
    | Reconciled(claim: Claim, answer: Answer, observation: Observation, now: Time)

  /** The work of a reconciliation that saw exactly this row. */
  function FreshWork(r: Row, claim: Claim, answer: Answer): Work {
    Enrich(WorkOf(r.(requested := claim.requested), claim.owner, claim.at), answer)
  }

  /** A reconciliation carried out on the row as it stands, with nothing in between. */
  function Atomically(r: Row, claim: Claim, answer: Answer, observation: Observation, now: Time): Finished {
    var w := FreshWork(r, claim, answer);
    Finish(r, w, Decide(w, answer, observation), now)
  }

  predicate Transaction(r: Row, e: Event, s: Row) {
    match e
    case Idle => s == r
    case Claimed(owner, length, now) => Admissible(owner) && Claimable(r, now) && s == ClaimedRow(r, owner, length, now)
    case Notified => s == r.(requested := r.requested + 1)
    case Confirmed(q) => s == (match Confirm(r, q) case Accepted(t) => t case Refused(_) => r)
    case ReleaseAsked(q) => s == (match Release(r, q) case Accepted(t) => t case Refused(_) => r)
    case Reconciled(claim, answer, observation, now) =>
      && claim.requested <= r.requested && r.appliedAt <= now
      && Atomically(r, claim, answer, observation, now) == Committed(s)
  }

  lemma FinalizationStaysCanonical(r: Row, w: Work, answer: Answer, o: Observation)
    requires RowInv(r) && w.attachment == r.att
    ensures var f := NextFinalization(w, answer, o);
            && (f != "" ==> Uuid.Valid(f) && Uuid.IsCanonical(StoredFinalization(f)))
            && (r.att.finalizationID != "" ==> f == r.att.finalizationID && StoredFinalization(f) == f)
            && (Ended(NextState(w, answer, o)) <==> StoredFinalization(f) != "")
  {
    var f := NextFinalization(w, answer, o);
    if f != "" { Uuid.CanonicalIsFixed(f); }
    assert Uuid.Parse("").None?;
  }

  /** What a reconciliation concludes about the row it saw respects everything already bound. */
  lemma DecisionAdvances(r: Row, w: Work, answer: Answer, o: Observation)
    requires RowInv(r) && w.attachment == r.att
    ensures Advances(r.att.state, NextState(w, answer, o))
    ensures r.att.podUID != "" ==> NextPodUID(w.attachment, o) == r.att.podUID
    ensures r.att.confirmUID != "" ==> r.att.confirmUID == NextPodUID(w.attachment, o)
    ensures NextState(w, answer, o) == Attached ==> NextPodUID(w.attachment, o) != ""
  {
  }

  lemma WrittenChecks(r: Row, w: Work, answer: Answer, o: Observation, now: Time)
    requires RowInv(r) && w.attachment == r.att && w.requirement.requestedGeneration <= r.requested
    ensures var p := Decide(w, answer, o);
            Checks(Written(r, w, p, now)) <==> (p.podName == "" <==> p.podUID == "")
  {
    FinalizationStaysCanonical(r, w, answer, o);
    DecisionAdvances(r, w, answer, o);
  }

  /** A reconciliation on the row as it stands never trips the guards on state, Pod and
      finalization: only lease, evidence, identifier layout or a nameless Pod stop it. */
  lemma AtomicOutcome(r: Row, claim: Claim, answer: Answer, observation: Observation, now: Time)
    requires RowInv(r) && claim.requested <= r.requested
    ensures var w := FreshWork(r, claim, answer);
            var p := Decide(w, answer, observation);
            var f := Atomically(r, claim, answer, observation, now);
            && (f.Committed? <==>
                  && LeaseOwner(r) == claim.owner && !Claimable(r, now)
                  && (p.observed ==> Covers(p.proof, w.requirement))
                  && (p.finalizationID == "" || Uuid.ColumnAccepts(p.finalizationID))
                  && (p.podName == "" <==> p.podUID == ""))
            && (f.Committed? ==> f.row == Written(r, w, p, now))
  {
    var w := FreshWork(r, claim, answer);
    FinalizationStaysCanonical(r, w, answer, observation);
    DecisionAdvances(r, w, answer, observation);
    WrittenChecks(r, w, answer, observation, now);
  }

  /** States may advance exactly along their rank. */
  lemma AdvancesIsRank(before: State, after: State)
    ensures Advances(before, after) <==> Rank(before) <= Rank(after)
  {
  }

  /** A finish that does not commit is an error exactly when the database refuses the row: an identifier its column does
      not take, or a nameless Pod under a current lease. Otherwise the lease is lost. */
  lemma AtomicFailures(r: Row, claim: Claim, answer: Answer, observation: Observation, now: Time)
    requires RowInv(r) && claim.requested <= r.requested
    ensures var w := FreshWork(r, claim, answer);
            var p := Decide(w, answer, observation);
            Atomically(r, claim, answer, observation, now) == DatabaseError <==>
              && LeaseOwner(r) == claim.owner && (p.observed ==> Covers(p.proof, w.requirement))
              && ((p.finalizationID != "" && !Uuid.ColumnAccepts(p.finalizationID))
                  || (!Claimable(r, now) && (p.podName == "") != (p.podUID == "")))
  {
    var w := FreshWork(r, claim, answer);
    FinalizationStaysCanonical(r, w, answer, observation);
    DecisionAdvances(r, w, answer, observation);
    WrittenChecks(r, w, answer, observation, now);
  }

  lemma WrittenKeepsRow(r: Row, claim: Claim, answer: Answer, observation: Observation, now: Time)
    requires RowInv(r) && claim.requested <= r.requested && r.appliedAt <= now
    requires Atomically(r, claim, answer, observation, now).Committed?
    ensures RowInv(Atomically(r, claim, answer, observation, now).row)
    ensures Evolves(r, Atomically(r, claim, answer, observation, now).row)
  {
    var w := FreshWork(r, claim, answer);
    FinalizationStaysCanonical(r, w, answer, observation);
    DecisionAdvances(r, w, answer, observation);
  }

  lemma ConfirmKeepsRow(r: Row, q: ConfirmRequest)
    requires RowInv(r) && Confirm(r, q).Accepted?
    ensures RowInv(Confirm(r, q).row) && Evolves(r, Confirm(r, q).row)
  {
  }

  lemma ReleaseKeepsRow(r: Row, q: ReleaseRequest)
    requires RowInv(r) && Release(r, q).Accepted?
    ensures RowInv(Release(r, q).row) && Evolves(r, Release(r, q).row)
  {
  }

  /** Every transaction keeps the row invariant and only moves the row forward. */
  lemma TransactionKeepsRow(r: Row, e: Event, s: Row)
    requires RowInv(r) && Transaction(r, e, s)
    ensures RowInv(s) && Evolves(r, s)
  {
    match e
    case Claimed(owner, _, _) => Uuid.CanonicalIsFixed(owner);
    case Confirmed(q) => if Confirm(r, q).Accepted? { ConfirmKeepsRow(r, q); }
    case ReleaseAsked(q) => if Release(r, q).Accepted? { ReleaseKeepsRow(r, q); }
    case Reconciled(claim, answer, observation, now) => WrittenKeepsRow(r, claim, answer, observation, now);
    case _ =>
  }
}
