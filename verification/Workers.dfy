/**
 The attachment worker and its repository as objects: one Step claims, consults the owner
 and the provider, rewrites the progress and finishes. The two port answers, and the time
 they take, are inputs.
 */
module Workers {
  import opened Text
  import opened Evidence
  import opened Attachments
  import opened Store
  import opened Histories
  import opened Protocol
  import opened Theorems
  import Uuid

  /** The database side of the port: one row and the database clock. */
  class Repository {
    var row: Row
    var clock: Time

    constructor (row: Row, clock: Time)
      ensures this.row == row && this.clock == clock
    {
      this.row, this.clock := row, clock;
    }

    method Wait(elapsed: Time)
      modifies this`clock
      ensures clock == old(clock) + elapsed
    {
      clock := clock + elapsed;
    }

    /** The due row is locked first; only then does the update meet the owner column. */
    method ClaimAttachment(owner: string, length: Time) returns (work: Option<Work>, failed: bool)
      requires Uuid.Valid(owner)
      modifies this`row
      ensures work.Some? <==> Claimable(old(row), clock) && Uuid.ColumnAccepts(owner)
      ensures failed <==> Claimable(old(row), clock) && !Uuid.ColumnAccepts(owner)
      ensures work.None? ==> row == old(row)
      ensures work.Some? ==> row == ClaimedRow(old(row), owner, length, clock) && work.value == WorkOf(row, owner, clock)
    {
      if row.lease.Some? && row.lease.value.until > clock { return None, false; }
      if !Uuid.ColumnAccepts(owner) { return None, true; }
      row := row.(lease := Some(Lease(Uuid.Canonical(owner), clock + length)), epoch := row.epoch + 1);
      work, failed := Some(WorkOf(row, owner, clock)), false;
    }

    /** Commits only for the holder of the current lease on the version it claimed, takes back nothing that
        is bound, and leaves a row whose fence the same or any earlier claim can no longer pass. */
    method FinishAttachment(w: Work, p: Progress) returns (f: Finished)
      modifies this`row
      ensures f == Finish(old(row), w, p, clock)
      ensures row == if f.Committed? then f.row else old(row)
      ensures f.Committed? ==>
                && Fenced(old(row), w) && !Claimable(old(row), clock) && Checks(row)
                && (p.observed ==> Covers(p.proof, w.requirement))
                && (old(row).att.podUID != "" ==> row.att.podUID == old(row).att.podUID)
                && (old(row).att.finalizationID != "" ==> p.finalizationID == old(row).att.finalizationID)
                && (old(row).blocked ==> row.blocked) && Rank(old(row).att.state) <= Rank(row.att.state)
      ensures f.Committed? ==> forall x: Work :: x.attachment.version <= w.attachment.version ==> !Fenced(row, x)
    {
      var a := row.att;
      if a.version != w.attachment.version || row.epoch != w.epoch || LeaseOwner(row) != w.owner { return LeaseLost; }
      if p.observed && !Covers(p.proof, w.requirement) { return LeaseLost; }
      if !Advances(a.state, p.state) || (a.podUID != "" && a.podUID != p.podUID)
         || (a.finalizationID != "" && a.finalizationID != p.finalizationID) {
        return LeaseLost;
      }
      if p.finalizationID != "" && !Uuid.ColumnAccepts(p.finalizationID) { return DatabaseError; }
      if row.lease.None? || row.lease.value.until <= clock { return LeaseLost; }
      var written := Written(row, w, p, clock);
      if !Checks(written) { return DatabaseError; }
      row := written;
      f := Committed(row);
    }
  }

  datatype Policy = Policy(requestTimeout: int, lease: int, observeEvery: int)

  /** What the constructor takes, the ports being present. */
  predicate Constructible(owner: string, policy: Policy, observers: nat) {
    && Uuid.Valid(owner) && observers <= 1
    && 0 < policy.requestTimeout && 3 * policy.requestTimeout <= policy.lease && 0 < policy.observeEvery
  }

  class AttachmentWorker {
    const repository: Repository
    const owner: string
    const lease: Time

    constructor (repository: Repository, owner: string, lease: Time)
      ensures this.repository == repository && this.owner == owner && this.lease == lease
    {
      this.repository, this.owner, this.lease := repository, owner, lease;
    }

    /** Refuses an owner that is no UUID, more than one observer, and a policy whose lease cannot
        hold three requests. The owner text is kept as given, not as printed. */
    static method New(repository: Repository, owner: string, policy: Policy, observers: nat) returns (w: AttachmentWorker?)
      ensures w != null <==> Constructible(owner, policy, observers)
      ensures w != null ==> fresh(w) && w.repository == repository && w.owner == owner && w.lease == policy.lease
    {
      var id := Uuid.Parse(owner);
      if observers > 1 || id.None? || Uuid.IsNil(id.value) || policy.requestTimeout <= 0
         || policy.lease < 3 * policy.requestTimeout || policy.observeEvery <= 0 {
        return null;
      }
      w := new AttachmentWorker(repository, owner, policy.lease);
    }

    /** One Step: nothing is found when nothing is due or the database refuses the owner; otherwise the row
        becomes what an atomic reconciliation of the claimed row writes, or stays as claimed. A lost lease
        is not an error. */
    method Step(consumer: Answer, observation: Observation, elapsed: Time) returns (found: bool, failed: bool)
      requires Uuid.Valid(owner)
      modifies repository
      ensures repository.clock == old(repository.clock) + (if found then elapsed else 0)
      ensures found <==> Claimable(old(repository.row), old(repository.clock)) && Uuid.ColumnAccepts(owner)
      ensures !found ==> repository.row == old(repository.row)
      ensures !found ==> (failed <==> Claimable(old(repository.row), old(repository.clock)))
      ensures found ==>
                var r := ClaimedRow(old(repository.row), owner, lease, old(repository.clock));
                var f := Atomically(r, Claim(owner, old(repository.clock), r.requested), consumer, observation, repository.clock);
                repository.row == (if f.Committed? then f.row else r) && (failed <==> f == DatabaseError)
    {
      var claimed, refused := repository.ClaimAttachment(owner, lease);
      if claimed.None? { return false, refused; }
      var work := claimed.value;
      if consumer.Said? {
        var valid := CheckConsumer(work.attachment, consumer.value);
        if valid {
          work := work.(consumerPodUIDs := consumer.value.podUIDs,
                        requireFresh := consumer.value.state == Closed && work.attachment.state != Released);
        }
      }
      repository.Wait(elapsed);
      var p := Reconcile(work, consumer, observation);
      var f := repository.FinishAttachment(work, p);
      found, failed := true, f == DatabaseError;
      assert work == FreshWork(ClaimedRow(old(repository.row), owner, lease, old(repository.clock)),
                               Claim(owner, old(repository.clock), old(repository.row).requested), consumer);
    }
  }

  lemma ClaimOutcome(r: Row, owner: string, lease: Time, now: Time, elapsed: Time)
    requires RowInv(r) && Admissible(owner)
    ensures var s := ClaimedRow(r, owner, lease, now);
            && RowInv(s) && (LeaseOwner(s) == owner <==> Uuid.IsCanonical(owner))
            && (Claimable(s, now + elapsed) <==> lease <= elapsed)
  {
    Uuid.CanonicalIsFixed(owner);
  }

  /** A Step with nothing in between commits exactly when its owner text is canonical, its lease has
      not run out, its evidence covers the claim, and the row it writes is well formed. A worker
      whose owner UUID is not written canonically therefore never commits anything. */
  lemma SoloStepCommits(r: Row, owner: string, lease: Time, now: Time, elapsed: Time, c: Answer, o: Observation)
    requires RowInv(r) && Admissible(owner)
    ensures var s := ClaimedRow(r, owner, lease, now);
            var claim := Claim(owner, now, s.requested);
            var w := FreshWork(s, claim, c);
            var p := Decide(w, c, o);
            Atomically(s, claim, c, o, now + elapsed).Committed? <==>
              && Uuid.IsCanonical(owner) && elapsed < lease
              && (o.Seen? ==> Covers(NextProof(w, o.value), w.requirement))
              && (p.finalizationID == "" || Uuid.ColumnAccepts(p.finalizationID))
              && (p.podName == "" <==> p.podUID == "")
  {
    var s := ClaimedRow(r, owner, lease, now);
    ClaimOutcome(r, owner, lease, now, elapsed);
    AtomicOutcome(s, Claim(owner, now, s.requested), c, o, now + elapsed);
  }

  /** An owner text in upper case is taken by the constructor and by the owner column, and its worker commits
      nothing in any run. */
  lemma ShoutedWorkerNeverCommits(d: Rules, worlds: seq<World>, actions: seq<Action>, k: nat)
    requires Implemented(d) && Behaviour(d, worlds, actions) && k < |actions| && actions[k].Commit?
    requires actions[k].i < |worlds[k].workers| && worlds[k].workers[actions[k].i].owner == SHOUTED
    ensures Constructible(SHOUTED, Policy(1, 3, 1), 0) && Admissible(SHOUTED)
    ensures worlds[k + 1].row == worlds[k].row
  {
    ShoutedIsValidNotCanonical();
    UnprintedOwnersNeverCommit(d, worlds, actions, k);
  }

  /** The lease must hold three requests: exactly three are enough. */
  lemma LeaseHoldsThreeRequests(owner: string, timeout: int, lease: int, every: int, observers: nat)
    requires Uuid.Valid(owner)
    ensures Constructible(owner, Policy(timeout, lease, every), observers) <==>
              timeout > 0 && lease >= timeout + timeout + timeout && every > 0 && (observers == 0 || observers == 1)
  {
  }
}
