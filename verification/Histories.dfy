/**
 Whole histories of one row: sequences of transactions, each on the row as it stood.
 Everything proved of one transaction is lifted to every history here.
 */
module Histories {
  import opened Text
  import opened Evidence
  import opened Attachments
  import opened Store
  import Uuid

  /** Consecutive rows linked by transactions. */
  ghost predicate History(rows: seq<Row>, events: seq<Event>) {
    && |rows| == |events| + 1
    && forall k {:trigger events[k]} :: 0 <= k < |events| ==> Transaction(rows[k], events[k], rows[k + 1])
  }

  lemma EvolvesTransitive(r: Row, s: Row, t: Row)
    requires Evolves(r, s) && Evolves(s, t)
    ensures Evolves(r, t)
  {
  }

  lemma OneMoreTransaction(rows: seq<Row>, events: seq<Event>, i: nat, j: nat)
    requires History(rows, events) && i < j < |rows| && RowInv(rows[j - 1]) && Evolves(rows[i], rows[j - 1])
    ensures RowInv(rows[j]) && Evolves(rows[i], rows[j])
  {
    TransactionKeepsRow(rows[j - 1], events[j - 1], rows[j]);
    EvolvesTransitive(rows[i], rows[j - 1], rows[j]);
  }

  /** Along every history: ranks never fall, bound identities never change, a block is never
      lifted, and versions, epochs, generations and applied times only grow. */
  lemma {:induction false} HistoryMovesForward(rows: seq<Row>, events: seq<Event>, i: nat, j: nat)
    requires History(rows, events) && i <= j < |rows| && RowInv(rows[i])
    ensures RowInv(rows[j]) && Evolves(rows[i], rows[j])
  {
    if i < j {
      HistoryMovesForward(rows, events, i, j - 1);
      OneMoreTransaction(rows, events, i, j);
    }
  }

  /** Only an uncontested reconciliation with a closed owner, an acknowledged Pod and nothing left
      releases a row, and the released row is not contested either. */
  lemma ReleaseIsEarned(r: Row, e: Event, s: Row)
    requires RowInv(r) && Transaction(r, e, s) && r.att.state != Released && s.att.state == Released
    ensures e.Reconciled? && !r.blocked && !s.blocked && s.att.reason == NoReason
    ensures var w := FreshWork(r, e.claim, e.answer);
            && OwnerClosed(w, e.answer) && w.requireFresh && e.observation.Seen? && !Residual(e.observation.value)
            && (r.att.podUID != "" ==> r.att.podUID in e.answer.value.podUIDs)
            && s.att.finalizationID == Uuid.Canonical(e.answer.value.finalizationID)
  {
    if e.Reconciled? {
      var w := FreshWork(r, e.claim, e.answer);
      FinalizationStaysCanonical(r, w, e.answer, e.observation);
    }
  }

  /** Content applied later than different content was collected after that content had been
      applied: evidence never rolls a row back. */
  lemma {:induction false} EvidenceNeverRollsBack(rows: seq<Row>, events: seq<Event>, i: nat, j: nat) returns (k: nat)
    requires History(rows, events) && i < j < |rows| && RowInv(rows[i])
    requires rows[i].hash != rows[j].hash
    ensures i < k <= j && rows[k].hash == rows[j].hash && rows[k].observedAt >= rows[i].appliedAt
  {
    HistoryMovesForward(rows, events, i, j - 1);
    if rows[j - 1].hash == rows[j].hash {
      k := EvidenceNeverRollsBack(rows, events, i, j - 1);
    } else {
      k := j;
      NewContentIsNewer(rows[j - 1], events[j - 1], rows[j]);
    }
  }

  /** In the times of the events: content that follows other content applied at time n was collected at n or later. */
  lemma LaterContentIsNewer(rows: seq<Row>, events: seq<Event>, i: nat, j: nat) returns (k: nat)
    requires History(rows, events) && RowInv(rows[0]) && i < |events| && i + 1 < j < |rows|
    requires events[i].Reconciled? && events[i].observation.Seen? && rows[i + 1].hash != rows[j].hash
    ensures i + 1 < k <= j && rows[k].hash == rows[j].hash && rows[k].observedAt >= events[i].now
  {
    HistoryMovesForward(rows, events, 0, i + 1);
    AppliedIsDated(rows[i], events[i], rows[i + 1]);
    k := EvidenceNeverRollsBack(rows, events, i + 1, j);
  }

  lemma AppliedIsDated(r: Row, e: Event, s: Row)
    requires Transaction(r, e, s) && e.Reconciled? && e.observation.Seen?
    ensures s.appliedAt == e.now
  {
  }

  /** And it was the evidence of some later reconciliation of that content. */
  lemma ContentComesFromEvidence(r: Row, e: Event, s: Row)
    requires Transaction(r, e, s) && r.hash != s.hash
    ensures e.Reconciled? && e.observation.Seen? && s.appliedAt == e.now
    ensures e.observation.value.proof.collectedAt != 0 ==>
              s.hash == e.observation.value.proof.hash && s.observedAt == e.observation.value.proof.collectedAt
    ensures e.observation.value.proof.collectedAt == 0 ==> s.hash == "" && s.observedAt == e.claim.at
  {
  }

  lemma AppliedContentIsNewer(r: Row, claim: Claim, answer: Answer, observation: Observation, now: Time)
    requires Atomically(r, claim, answer, observation, now).Committed?
    requires Atomically(r, claim, answer, observation, now).row.hash != r.hash
    ensures Atomically(r, claim, answer, observation, now).row.observedAt >= r.appliedAt
  {
  }

  lemma NewContentIsNewer(r: Row, e: Event, s: Row)
    requires Transaction(r, e, s) && r.hash != s.hash
    ensures s.observedAt >= r.appliedAt
  {
    assert e.Reconciled?;
    AppliedContentIsNewer(r, e.claim, e.answer, e.observation, e.now);
  }

  /** An observed reconciliation answers every notification that was pending when it was claimed. */
  lemma NotificationsAreCovered(r: Row, e: Event, s: Row)
    requires RowInv(r) && Transaction(r, e, s) && e.Reconciled? && e.observation.Seen?
    ensures e.claim.requested <= s.processed <= s.requested
  {
    TransactionKeepsRow(r, e, s);
  }

  /** Timed evidence covers exactly when it answers every notification and is either no older than what was applied or
      the same content again. */
  lemma TimedEvidenceCovers(r: Row, claim: Claim, answer: Answer, seen: Observed)
    requires seen.proof.collectedAt != 0
    ensures var w, p := FreshWork(r, claim, answer), seen.proof;
            Covers(NextProof(w, seen), w.requirement) <==>
              p.coveredGeneration >= claim.requested
              && (p.collectedAt > r.appliedAt || p.collectedAt == r.appliedAt || (p.hash == r.hash && r.hash != ""))
  {
  }

  /** Evidence without a timestamp covers its own claim exactly when the claim's clock is set and
      not behind the evidence already applied. */
  lemma UntimedEvidenceCovers(r: Row, claim: Claim, answer: Answer, seen: Observed)
    requires seen.proof.collectedAt == 0
    ensures var w := FreshWork(r, claim, answer);
            Covers(NextProof(w, seen), w.requirement) <==> claim.at != 0 && claim.at >= r.appliedAt
  {
  }

  // -------- progress --------

  /** The owner is validly closed and acknowledges the Pod on record, and nothing is left. */
  predicate NothingLeft(r: Row, c: Answer, o: Observation) {
    && o.Seen? && !Residual(o.value) && c.Said? && c.value.state == Closed && ValidConsumer(r.att, c.value)
    && (r.att.podUID == "" || r.att.podUID in c.value.podUIDs)
  }

  /** From every uncontested row one committed reconciliation then releases it. */
  lemma OneStepReleases(r: Row, claim: Claim, c: Answer, o: Observation, now: Time)
    requires RowInv(r) && !r.blocked && NothingLeft(r, c, o)
    requires Atomically(r, claim, c, o, now).Committed?
    ensures var s := Atomically(r, claim, c, o, now).row;
            && s.att.state == Released && s.att.reason == NoReason && !s.blocked
            && s.att.podUID == r.att.podUID
            && s.att.finalizationID == Uuid.Canonical(c.value.finalizationID)
  {
    var w := FreshWork(r, claim, c);
    FinalizationStaysCanonical(r, w, c, o);
  }

  /** Repeating it on the same facts changes nothing exactly when the owner writes its
      finalization identity in canonical form; otherwise the repetition contests the row. */
  lemma RepeatingReleaseIsStable(r: Row, claim: Claim, c: Answer, o: Observation, now: Time, again: Claim)
    requires RowInv(r) && !r.blocked && NothingLeft(r, c, o)
    requires Atomically(r, claim, c, o, now).Committed?
    ensures var s := Atomically(r, claim, c, o, now).row;
            var p := Decide(FreshWork(s, again, c), c, o);
            && (p.state == s.att.state && p.podUID == s.att.podUID && p.finalizationID == s.att.finalizationID
                && p.reason == s.att.reason && !p.blocked
                <==> Uuid.IsCanonical(c.value.finalizationID))
            && (!Uuid.IsCanonical(c.value.finalizationID) ==> p.state == Released && p.blocked && p.reason == ProtocolViolation)
  {
    OneStepReleases(r, claim, c, o, now);
    Uuid.CanonicalIsFixed(c.value.finalizationID);
  }

  /** A finalization identity that parses but is not in printed form. */
  const SHOUTED := seq(36, i => if i == 8 || i == 13 || i == 18 || i == 23 then '-' else 'A')

  lemma ShoutedIsValidNotCanonical()
    ensures Uuid.Valid(SHOUTED) && Uuid.ColumnAccepts(SHOUTED) && !Uuid.IsCanonical(SHOUTED)
  {
    forall i | 0 <= i < 32 ensures Uuid.HexDigit(SHOUTED[Uuid.DigitAt(i)]) == Some(10) {}
    assert Uuid.Parse(SHOUTED).value[0] == 10;
    var u := Uuid.Parse(SHOUTED).value;
    assert Uuid.Print(u)[0] == Uuid.HexChar(u[0]) == 'a';
  }

  /** So a clean release can turn into a contested one although nothing changed. */
  lemma CleanReleaseThenContested(r: Row, c: Submission, o: Observed, now: Time)
    requires RowInv(r) && !r.blocked && r.att.state == Reserved && NothingLeft(r, Said(c), Seen(o))
    requires c.finalizationID == SHOUTED
    requires !Claimable(r, now) && Covers(o.proof, Requirement(r.requested, r.appliedAt, r.hash))
    ensures var claim := Claim(LeaseOwner(r), now, r.requested);
            var f := Atomically(r, claim, Said(c), Seen(o), now);
            && f.Committed? && f.row.att.state == Released && f.row.att.reason == NoReason
            && forall again :: Decide(FreshWork(f.row, again, Said(c)), Said(c), Seen(o)).blocked
  {
    var claim := Claim(LeaseOwner(r), now, r.requested);
    ShoutedIsValidNotCanonical();
    AtomicOutcome(r, claim, Said(c), Seen(o), now);
    OneStepReleases(r, claim, Said(c), Seen(o), now);
    forall again ensures Decide(FreshWork(Atomically(r, claim, Said(c), Seen(o), now).row, again, Said(c)), Said(c), Seen(o)).blocked {
      RepeatingReleaseIsStable(r, claim, Said(c), Seen(o), now, again);
    }
  }
}
