/**
 What the reconciliation protocol guarantees over every run, and why it is arranged the
 way it is.
 */
module Theorems {
  import opened Text
  import opened Evidence
  import opened Attachments
  import opened Store
  import opened Histories
  import opened Provider
  import opened Protocol
  import Uuid

  function Rows(worlds: seq<World>): (rows: seq<Row>)
    ensures |rows| == |worlds|
  {
    seq(|worlds|, k requires 0 <= k < |worlds| => worlds[k].row)
  }

  function Events(worlds: seq<World>, actions: seq<Action>): (events: seq<Event>)
    requires |worlds| == |actions| + 1
    ensures |events| == |actions|
  {
    seq(|actions|, k requires 0 <= k < |actions| => EventOf(worlds[k], actions[k]))
  }

  /** Every concurrent run is a serial history: each committed Step acted on the row as it
      stood, and every other Step left it alone. */
  lemma RunsAreSerial(d: Rules, worlds: seq<World>, actions: seq<Action>)
    requires Implemented(d) && Behaviour(d, worlds, actions)
    ensures History(Rows(worlds), Events(worlds, actions)) && Prepared(Rows(worlds)[0])
  {
    forall k | 0 <= k < |actions|
      ensures Transaction(Rows(worlds)[k], Events(worlds, actions)[k], Rows(worlds)[k + 1])
    {
      BehaviourKeepsInv(d, worlds, actions, k);
      NextKeepsInv(d, worlds[k], actions[k], worlds[k + 1]);
    }
  }

  /** Between any two moments of any run the row satisfies its invariant and only moved forward. */
  lemma RowsMoveForward(d: Rules, worlds: seq<World>, actions: seq<Action>, i: nat, j: nat)
    requires Implemented(d) && Behaviour(d, worlds, actions) && i <= j < |worlds|
    ensures RowInv(worlds[j].row) && Evolves(worlds[i].row, worlds[j].row)
  {
    RunsAreSerial(d, worlds, actions);
    BehaviourKeepsInv(d, worlds, actions, i);
    HistoryMovesForward(Rows(worlds), Events(worlds, actions), i, j);
  }

  // -------- what a release leaves --------

  lemma ReadingKeepsSettled(d: Rules, s: World, a: Action, t: World)
    requires EnvironmentStep(d, s, a, t) || AuditStep(s, a, t) || AskStep(d, s, a, t) || ObserveStep(d, s, a, t)
    ensures t.settled == s.settled
  {
  }

  lemma WritingKeepsSettled(s: World, a: Action, t: World)
    requires RequestStep(s, a, t) || ClaimStep(s, a, t) || FinishStep(s, a, t)
    requires s.row.att.state == Released
    ensures t.settled == s.settled
  {
  }

  lemma SettledStays(d: Rules, s: World, a: Action, t: World)
    requires Implemented(d) && Inv(d, s) && Next(d, s, a, t) && s.row.att.state == Released
    ensures t.row.att.state == Released && t.settled == s.settled
  {
    assert t.settled == s.settled by {
      if RequestStep(s, a, t) || ClaimStep(s, a, t) || FinishStep(s, a, t) { WritingKeepsSettled(s, a, t); }
      else { ReadingKeepsSettled(d, s, a, t); }
    }
    assert Evolves(s.row, t.row) by {
      NextKeepsInv(d, s, a, t);
      TransactionKeepsRow(s.row, EventOf(s, a), t.row);
    }
  }

  lemma {:induction false} ReleasedStaysSettled(d: Rules, worlds: seq<World>, actions: seq<Action>, i: nat, j: nat)
    requires Implemented(d) && Behaviour(d, worlds, actions) && i <= j < |worlds| && worlds[i].row.att.state == Released
    ensures worlds[j].row.att.state == Released && worlds[j].settled == worlds[i].settled
  {
    if i < j {
      ReleasedStaysSettled(d, worlds, actions, i, j - 1);
      BehaviourKeepsInv(d, worlds, actions, j - 1);
      SettledStays(d, worlds[j - 1], actions[j - 1], worlds[j]);
    }
  }

  /** Whatever the surroundings do: once released, for ever released, with the owner closed, no Pod, no card
      of a Pod the releasing Step knew of, no card witnessed before it, and no address of such a card. */
  lemma ReleasedLeavesNothing(d: Rules, worlds: seq<World>, actions: seq<Action>, i: nat, j: nat)
    requires Implemented(d) && Behaviour(d, worlds, actions) && i <= j < |worlds| && worlds[i].row.att.state == Released
    ensures worlds[j].row.att.state == Released && worlds[j].owner == Closed
    ensures NothingOf(worlds[i].settled, worlds[j].cluster)
  {
    ReleasedStaysSettled(d, worlds, actions, i, j);
    BehaviourKeepsInv(d, worlds, actions, j);
  }

  /** What is left is of a Pod the releasing Step knew of or of a card witnessed by then. */
  predicate Attributable(acc: Account, c: Cluster) {
    && (forall x :: x in c.cards ==> x.pod in acc.pods || x.uid in acc.cards)
    && (forall x :: x in c.addresses ==> x.card in acc.cards)
  }

  /** A released row has a clean cluster exactly when whatever is left could be attributed. */
  lemma CleanExactlyIfAttributable(d: Rules, worlds: seq<World>, actions: seq<Action>, i: nat, j: nat)
    requires Implemented(d) && Behaviour(d, worlds, actions) && i <= j < |worlds| && worlds[i].row.att.state == Released
    ensures Clean(worlds[j]) <==> Attributable(worlds[i].settled, worlds[j].cluster)
  {
    ReleasedLeavesNothing(d, worlds, actions, i, j);
    var acc, c := worlds[i].settled, worlds[j].cluster;
    if Attributable(acc, c) {
      assert c.cards == {} by { assert forall x :: x in c.cards ==> x.pod !in acc.pods && x.uid !in acc.cards; }
      assert c.addresses == {} by { assert forall x :: x in c.addresses ==> x.card !in acc.cards; }
    }
  }

  /** Where closed owners name all their Pods and cards are traced, once released is for ever clean. */
  lemma ReleasedStaysClean(d: Rules, worlds: seq<World>, actions: seq<Action>, i: nat, j: nat)
    requires Implemented(d) && d.acknowledges && d.traces && Behaviour(d, worlds, actions) && i <= j < |worlds|
    requires worlds[i].row.att.state == Released
    ensures worlds[j].row.att.state == Released && Clean(worlds[j])
  {
    ReleasedStaysSettled(d, worlds, actions, i, j);
    BehaviourKeepsInv(d, worlds, actions, j);
  }

  // -------- one writer at a time --------

  predicate HasWork(pc: Pc) { !pc.Resting? }

  /** No two workers hold the same epoch. */
  predicate Exclusive(s: World) {
    forall i, j :: 0 <= i < j < |s.workers| && HasWork(s.workers[i].pc) && HasWork(s.workers[j].pc) ==>
      s.workers[i].pc.work.epoch != s.workers[j].pc.work.epoch
  }

  /** Outside a claim, a worker that holds work after a step held it before, in the same epoch. */
  predicate EpochsKept(s: World, t: World) {
    && |t.workers| == |s.workers|
    && forall i :: 0 <= i < |s.workers| && HasWork(t.workers[i].pc) ==>
         HasWork(s.workers[i].pc) && t.workers[i].pc.work.epoch == s.workers[i].pc.work.epoch
  }

  lemma ObserveKeepsEpochs(d: Rules, s: World, a: Action, t: World)
    requires ObserveStep(d, s, a, t)
    ensures EpochsKept(s, t)
  {
  }

  lemma AskKeepsEpochs(d: Rules, s: World, a: Action, t: World)
    requires AskStep(d, s, a, t)
    ensures EpochsKept(s, t)
  {
  }

  lemma ClaimKeepsExclusive(d: Rules, s: World, a: Action, t: World)
    requires Inv(d, s) && Exclusive(s) && ClaimStep(s, a, t)
    ensures Exclusive(t)
  {
    forall j | 0 <= j < |s.workers| && HasWork(s.workers[j].pc) ensures s.workers[j].pc.work.epoch <= s.row.epoch {
      assert PcInv(d, s, s.workers[j].owner, s.workers[j].pc);
    }
  }

  lemma KeptIsExclusive(s: World, t: World)
    requires Exclusive(s) && EpochsKept(s, t)
    ensures Exclusive(t)
  {
  }

  lemma OutsideKeepsEpochs(d: Rules, s: World, a: Action, t: World)
    requires EnvironmentStep(d, s, a, t) || AuditStep(s, a, t) || RequestStep(s, a, t)
    ensures EpochsKept(s, t)
  {
    assert t.workers == s.workers;
  }

  lemma FinishKeepsEpochs(s: World, a: Action, t: World)
    requires FinishStep(s, a, t)
    ensures EpochsKept(s, t)
  {
  }

  lemma NextKeepsExclusive(d: Rules, s: World, a: Action, t: World)
    requires Inv(d, s) && Exclusive(s) && Next(d, s, a, t)
    ensures Exclusive(t)
  {
    if ClaimStep(s, a, t) { ClaimKeepsExclusive(d, s, a, t); }
    else {
      assert EpochsKept(s, t) by {
        if AskStep(d, s, a, t) { AskKeepsEpochs(d, s, a, t); }
        else if ObserveStep(d, s, a, t) { ObserveKeepsEpochs(d, s, a, t); }
        else if FinishStep(s, a, t) { FinishKeepsEpochs(s, a, t); }
        else { OutsideKeepsEpochs(d, s, a, t); }
      }
      KeptIsExclusive(s, t);
    }
  }

  lemma {:induction false} RunsAreExclusive(d: Rules, worlds: seq<World>, actions: seq<Action>, k: nat)
    requires Implemented(d) && Behaviour(d, worlds, actions) && k < |worlds|
    ensures Exclusive(worlds[k])
  {
    if k > 0 {
      RunsAreExclusive(d, worlds, actions, k - 1);
      BehaviourKeepsInv(d, worlds, actions, k - 1);
      NextKeepsExclusive(d, worlds[k - 1], actions[k - 1], worlds[k]);
    }
  }

  /** At every moment of every run at most one worker can still pass the fence. */
  lemma OneWriterAtATime(d: Rules, worlds: seq<World>, actions: seq<Action>, k: nat, i: nat, j: nat)
    requires Implemented(d) && Behaviour(d, worlds, actions) && k < |worlds|
    requires i < |worlds[k].workers| && j < |worlds[k].workers|
    requires HasWork(worlds[k].workers[i].pc) && Fenced(worlds[k].row, worlds[k].workers[i].pc.work)
    requires HasWork(worlds[k].workers[j].pc) && Fenced(worlds[k].row, worlds[k].workers[j].pc.work)
    ensures i == j
  {
    RunsAreExclusive(d, worlds, actions, k);
  }

  // -------- a worker whose owner text is not in printed form --------

  lemma UnprintedNeverPasses(d: Rules, s: World, i: nat, t: World)
    requires Inv(d, s) && i < |s.workers| && !Uuid.IsCanonical(s.workers[i].owner) && FinishStep(s, Commit(i), t)
    ensures t.row == s.row
  {
    assert PcInv(d, s, s.workers[i].owner, s.workers[i].pc);
  }

  /** In no run does it ever commit anything, whoever else is working. */
  lemma UnprintedOwnersNeverCommit(d: Rules, worlds: seq<World>, actions: seq<Action>, k: nat)
    requires Implemented(d) && Behaviour(d, worlds, actions) && k < |actions| && actions[k].Commit?
    requires actions[k].i < |worlds[k].workers| && !Uuid.IsCanonical(worlds[k].workers[actions[k].i].owner)
    ensures worlds[k + 1].row == worlds[k].row
  {
    BehaviourKeepsInv(d, worlds, actions, k);
    UnprintedNeverPasses(d, worlds[k], actions[k].i, worlds[k + 1]);
  }

  // -------- what may happen at any time --------

  /** A worker may crash anywhere; the owner may stay silent; the provider may fail. */
  lemma MayFail(d: Rules, s: World, i: nat, kind: ProviderFailure)
    requires i < |s.workers|
    ensures FinishStep(s, Crash(i), At(s, i, Resting))
    ensures d.ownerFirst && s.workers[i].pc.Holding? ==>
              AskStep(d, s, AskOwner(i, Unanswered), At(s, i, Asked(s.workers[i].pc.work, Unanswered)))
    ensures s.workers[i].pc.Asked? || s.workers[i].pc.PodsListed? || s.workers[i].pc.CardsListed? ==>
              FailStep(s, ObserveFails(i, kind), At(s, i, Ready(s.workers[i].pc.work, s.workers[i].pc.answer, Failed(kind))))
  {
    if s.workers[i].pc.Holding? { assert Enrich(s.workers[i].pc.work, Unanswered) == s.workers[i].pc.work; }
  }

  /** Once a lease has run out any resting worker with an admissible owner may claim the row, in a new epoch. */
  lemma MayClaim(s: World, i: nat) returns (t: World)
    requires i < |s.workers| && s.workers[i].pc == Resting && Admissible(s.workers[i].owner)
    requires s.row.lease.None? || s.row.lease.value.until <= s.now
    ensures ClaimStep(s, TakeClaim(i), t) && t.row.epoch == s.row.epoch + 1 && t.workers[i].pc.Holding?
    ensures t.row.lease.Some? && t.row.lease.value.until == s.now + s.workers[i].lease
  {
    var me := s.workers[i];
    var row := ClaimedRow(s.row, me.owner, me.lease, s.now);
    t := At(s.(row := row), i, Holding(WorkOf(row, me.owner, s.now)));
  }

  // -------- what safety needs --------

  /** The world some finite run ends in. */
  ghost predicate Reaches(d: Rules, s: World) {
    exists worlds: seq<World>, actions: seq<Action> :: Behaviour(d, worlds, actions) && worlds[|worlds| - 1] == s
  }

  lemma ReachesNext(d: Rules, s: World, a: Action, t: World)
    requires Reaches(d, s) && Next(d, s, a, t)
    ensures Reaches(d, t)
  {
    var worlds: seq<World>, actions: seq<Action> :| Behaviour(d, worlds, actions) && worlds[|worlds| - 1] == s;
    assert Behaviour(d, worlds + [t], actions + [a]);
    assert (worlds + [t])[|worlds|] == t;
  }

  lemma ReachesByObserving(d: Rules, s: World, a: Action, t: World)
    requires Reaches(d, s) && ObserveStep(d, s, a, t)
    ensures Reaches(d, t)
  {
    ReachesNext(d, s, a, t);
  }

  lemma ReachesByCluster(d: Rules, s: World, a: Action, t: World)
    requires Reaches(d, s) && ClusterStep(d, s, a, t)
    ensures Reaches(d, t)
  {
    ReachesNext(d, s, a, t);
  }

  lemma ReachesByAudit(d: Rules, s: World, a: Action, t: World)
    requires Reaches(d, s) && AuditStep(s, a, t)
    ensures Reaches(d, t)
  {
    ReachesNext(d, s, a, t);
  }

  /** No run shows a released row while the owner could act or objects remain. */
  ghost predicate Safe(d: Rules) {
    forall s :: Reaches(d, s) ==> ReleasedOnlyClean(s)
  }

  function Ones(): Uuid.Value { seq(32, _ => 1) }

  function OwnerText(): (s: string)
    ensures Uuid.IsCanonical(s) && Uuid.ColumnAccepts(s)
  {
    Uuid.ParsePrint(Ones());
    assert Ones()[0] == 1;
    Uuid.Print(Ones())
  }

  const IDENTITY := Identity("att", "tenant", "inst", "sub", 1, "cluster", "ns")

  function NewRow(): Row {
    Row(Attachment(IDENTITY, Reserved, NoReason, 1, "", "", "", ""), false, NO_RELATIONS, 0, None, 1, 0, 0, "", 0)
  }

  function TakenRow(): Row { ClaimedRow(NewRow(), OwnerText(), 20, 1) }

  function TakenWork(): Work { WorkOf(TakenRow(), OwnerText(), 1) }

  function ClosedAnswer(pods: seq<string>): Answer { Said(Submission(1, IDENTITY, Closed, OwnerText(), pods, Some(1))) }

  /** An answer that found nothing. */
  const BLANK := Observed(Proof(1, "", 1), false, false, "", "", NO_RELATIONS)

  function Me(pc: Pc): seq<Worker> { [Worker(OwnerText(), 20, pc)] }

  /** One resting worker over a prepared row, the cluster empty. */
  function Start(): World { World(1, NewRow(), Open, NOTHING, {}, {}, Account({}, {}), NoAudit, None, Me(Resting)) }

  lemma StartIsReached(d: Rules)
    ensures Reaches(d, Start())
  {
    assert Behaviour(d, [Start()], []);
    assert [Start()][0] == Start();
  }

  lemma Claims(d: Rules, s: World)
    requires Reaches(d, s) && s.row == NewRow() && s.now == 1 && s.workers == Me(Resting)
    ensures Reaches(d, s.(row := TakenRow(), workers := Me(Holding(TakenWork()))))
  {
    var t := s.(row := TakenRow(), workers := Me(Holding(TakenWork())));
    assert t == At(s.(row := TakenRow()), 0, Holding(TakenWork()));
    assert ClaimStep(s, TakeClaim(0), t);
    ReachesNext(d, s, TakeClaim(0), t);
  }

  lemma Closes(d: Rules, s: World)
    requires Reaches(d, s) && s.owner == Open
    ensures Reaches(d, s.(owner := Closed))
  {
    var t := s.(owner := Closing);
    assert OwnerStep(s, OwnerAdvances, t);
    ReachesNext(d, s, OwnerAdvances, t);
    assert OwnerStep(t, OwnerAdvances, s.(owner := Closed));
    ReachesNext(d, t, OwnerAdvances, s.(owner := Closed));
  }

  lemma StartsPod(d: Rules, s: World)
    requires Reaches(d, s) && s.owner == Open && s.cluster == NOTHING && s.started == {}
    ensures Reaches(d, s.(cluster := Cluster({"p"}, {}, {}), started := {"p"}))
  {
    var t := s.(cluster := Cluster({"p"}, {}, {}), started := {"p"});
    assert ClusterStep(d, s, MakePod("p"), t);
    ReachesByCluster(d, s, MakePod("p"), t);
  }

  lemma Asks(d: Rules, s: World, pods: seq<string>)
    requires d.ownerFirst && Reaches(d, s) && s.row == TakenRow() && s.owner == Closed && s.workers == Me(Holding(TakenWork()))
    requires d.acknowledges ==> s.started <= Elements(pods)
    ensures Reaches(d, s.(workers := Me(Asked(Enrich(TakenWork(), ClosedAnswer(pods)), ClosedAnswer(pods)))))
  {
    var c := ClosedAnswer(pods);
    var t := s.(workers := Me(Asked(Enrich(TakenWork(), c), c)));
    assert t == At(s, 0, Asked(Enrich(TakenWork(), c), c));
    assert AskStep(d, s, AskOwner(0, c), t);
    ReachesNext(d, s, AskOwner(0, c), t);
  }

  lemma BlankReleases(pods: seq<string>)
    requires |pods| <= 1 && "" !in pods
    ensures var c := ClosedAnswer(pods);
            var w := Enrich(TakenWork(), c);
            var f := Finish(TakenRow(), w, Decide(w, c, Seen(BLANK)), 1);
            f.Committed? && f.row.att.state == Released
  {
    var c := ClosedAnswer(pods);
    var claim := Claim(OwnerText(), 1, 1);
    assert ValidConsumer(TakenRow().att, c.value);
    assert FreshWork(TakenRow(), claim, c) == Enrich(TakenWork(), c);
    assert RowInv(TakenRow()) by { Uuid.CanonicalIsFixed(OwnerText()); }
    AtomicOutcome(TakenRow(), claim, c, Seen(BLANK), 1);
  }

  lemma Commits(d: Rules, s: World, w: Work, c: Answer, o: Observation)
    requires Reaches(d, s) && s.now == 1 && s.workers == Me(Ready(w, c, o))
    requires Finish(s.row, w, Decide(w, c, o), 1).Committed?
    ensures exists t :: Reaches(d, t) && t.row == Finish(s.row, w, Decide(w, c, o), 1).row && t.cluster == s.cluster
  {
    var t := At(Committing(s, w, Finish(s.row, w, Decide(w, c, o), 1)), 0, Resting);
    assert FinishStep(s, Commit(0), t);
    ReachesNext(d, s, Commit(0), t);
  }

  /** A blank answer ready to be committed over a cluster that is not empty. */
  lemma EndsUnsafe(d: Rules, s: World, pods: seq<string>)
    requires |pods| <= 1 && "" !in pods && s.row == TakenRow() && s.now == 1 && s.cluster != NOTHING
    requires Reaches(d, s)
    requires s.workers == Me(Ready(Enrich(TakenWork(), ClosedAnswer(pods)), ClosedAnswer(pods), Seen(BLANK)))
    ensures !Safe(d)
  {
    var c := ClosedAnswer(pods);
    var w := Enrich(TakenWork(), c);
    BlankReleases(pods);
    Commits(d, s, w, c, Seen(BLANK));
    var t :| Reaches(d, t) && t.row == Finish(s.row, w, Decide(w, c, Seen(BLANK)), 1).row && t.cluster == s.cluster;
    assert !ReleasedOnlyClean(t);
  }

  /** A fresh collection by a worker that has asked. */
  lemma Collects(d: Rules, s: World, w: Work, c: Answer)
    requires Reaches(d, s) && s.workers == Me(Asked(w, c)) && Reports(w, s.cluster, BLANK)
    ensures Reaches(d, s.(workers := Me(Ready(w, c, Seen(BLANK)))))
  {
    var k := s.cluster;
    var t, u := s.(workers := Me(PodsListed(w, c, k.pods))), s.(workers := Me(CardsListed(w, c, k.pods, k.cards)));
    var v := s.(workers := Me(Ready(w, c, Seen(BLANK))));
    assert t == At(s, 0, PodsListed(w, c, k.pods)) && u == At(t, 0, CardsListed(w, c, k.pods, k.cards));
    assert v == At(u, 0, Ready(w, c, Seen(BLANK))) && Cluster(k.pods, k.cards, k.addresses) == k;
    assert ListPodsStep(d, s, ListPods(0), t);
    ReachesByObserving(d, s, ListPods(0), t);
    assert ListCardsStep(t, ListCards(0), u);
    ReachesByObserving(d, t, ListCards(0), u);
    assert ListAddressesStep(u, ListAddresses(0, BLANK), v);
    ReachesByObserving(d, u, ListAddresses(0, BLANK), v);
  }

  // A collection, however fresh, taken before the owner is asked can miss its last Pod.

  lemma ListsEarly(d: Rules, s: World, w: Work)
    requires !d.ownerFirst && Reaches(d, s) && s.cluster == NOTHING && s.workers == Me(Holding(w))
    ensures Reaches(d, s.(workers := Me(EarlyCards(w, {}, {}))))
  {
    var t, u := s.(workers := Me(EarlyPods(w, {}))), s.(workers := Me(EarlyCards(w, {}, {})));
    assert t == At(s, 0, EarlyPods(w, {})) && u == At(t, 0, EarlyCards(w, {}, {}));
    assert ListPodsStep(d, s, ListPods(0), t);
    ReachesByObserving(d, s, ListPods(0), t);
    assert ListCardsStep(t, ListCards(0), u);
    ReachesByObserving(d, t, ListCards(0), u);
  }

  lemma CollectsEarly(d: Rules, s: World, w: Work)
    requires !d.ownerFirst && Reaches(d, s) && s.cluster == NOTHING && s.workers == Me(Holding(w))
    requires w.relations == NO_RELATIONS
    ensures Reaches(d, s.(workers := Me(EarlyReady(w, Seen(BLANK)))))
  {
    ListsEarly(d, s, w);
    var u, v := s.(workers := Me(EarlyCards(w, {}, {}))), s.(workers := Me(EarlyReady(w, Seen(BLANK))));
    assert v == At(u, 0, EarlyReady(w, Seen(BLANK)));
    assert Reports(w, NOTHING, BLANK);
    assert ListAddressesStep(u, ListAddresses(0, BLANK), v);
    ReachesByObserving(d, u, ListAddresses(0, BLANK), v);
  }

  lemma AsksLate(d: Rules, s: World)
    requires !d.ownerFirst && Reaches(d, s) && s.row == TakenRow() && s.owner == Closed && s.started == {"p"}
    requires s.workers == Me(EarlyReady(TakenWork(), Seen(BLANK)))
    ensures Reaches(d, s.(workers := Me(Ready(Enrich(TakenWork(), ClosedAnswer(["p"])), ClosedAnswer(["p"]), Seen(BLANK)))))
  {
    var c := ClosedAnswer(["p"]);
    var t := s.(workers := Me(Ready(Enrich(TakenWork(), c), c, Seen(BLANK))));
    assert t == At(s, 0, Ready(Enrich(TakenWork(), c), c, Seen(BLANK)));
    assert AskStep(d, s, AskOwner(0, c), t);
    ReachesNext(d, s, AskOwner(0, c), t);
  }

  lemma PodStartsTooLate(d: Rules, s: World)
    requires !d.ownerFirst && Reaches(d, s) && s.row == TakenRow() && s.now == 1 && s.owner == Open && s.cluster == NOTHING
    requires s.started == {} && s.workers == Me(EarlyReady(TakenWork(), Seen(BLANK)))
    ensures !Safe(d)
  {
    StartsPod(d, s);
    Closes(d, s.(cluster := Cluster({"p"}, {}, {}), started := {"p"}));
    var u := s.(cluster := Cluster({"p"}, {}, {}), started := {"p"}, owner := Closed);
    AsksLate(d, u);
    EndsUnsafe(d, u.(workers := Me(Ready(Enrich(TakenWork(), ClosedAnswer(["p"])), ClosedAnswer(["p"]), Seen(BLANK)))), ["p"]);
  }

  lemma AskingLastIsUnsafe(d: Rules)
    requires !d.ownerFirst
    ensures !Safe(d)
  {
    StartIsReached(d);
    Claims(d, Start());
    var s := Start().(row := TakenRow(), workers := Me(Holding(TakenWork())));
    CollectsEarly(d, s, TakenWork());
    PodStartsTooLate(d, s.(workers := Me(EarlyReady(TakenWork(), Seen(BLANK)))));
  }

  // A truthful collection completed before the last Pod started misses it.

  lemma AuditListsTwo(d: Rules, s: World)
    requires Reaches(d, s) && s.audit == NoAudit && s.now == 1 && s.row.requested == 1 && s.cluster == NOTHING
    ensures Reaches(d, s.(audit := AuditPods(1, 1, {})))
  {
    var t, u := s.(audit := AuditBegun(1, 1)), s.(audit := AuditPods(1, 1, {}));
    assert AuditStep(s, AuditBegins, t);
    ReachesByAudit(d, s, AuditBegins, t);
    assert AuditStep(t, AuditListsPods, u);
    ReachesByAudit(d, t, AuditListsPods, u);
  }

  lemma Audits(d: Rules, s: World)
    requires Reaches(d, s) && s.audit == NoAudit && s.now == 1 && s.row.requested == 1 && s.cluster == NOTHING
    ensures Reaches(d, s.(view := Some(View(1, 1, NOTHING))))
  {
    AuditListsTwo(d, s);
    var u, v := s.(audit := AuditPods(1, 1, {})), s.(audit := AuditCards(1, 1, {}, {}));
    var w := s.(view := Some(View(1, 1, NOTHING)));
    assert AuditStep(u, AuditListsCards, v);
    ReachesByAudit(d, u, AuditListsCards, v);
    assert AuditStep(v, AuditEnds, w);
    ReachesByAudit(d, v, AuditEnds, w);
  }

  lemma UsesView(d: Rules, s: World, w: Work, c: Answer)
    requires !d.freshOnDemand && Reaches(d, s) && s.workers == Me(Asked(w, c)) && s.view == Some(View(1, 1, NOTHING))
    requires w.relations == NO_RELATIONS
    ensures Reaches(d, s.(workers := Me(Ready(w, c, Seen(BLANK)))))
  {
    var t := s.(workers := Me(Ready(w, c, Seen(BLANK))));
    assert t == At(s, 0, Ready(w, c, Seen(BLANK)));
    assert Reports(w, NOTHING, BLANK);
    assert CacheStep(d, s, ObserveCached(0, BLANK), t);
    ReachesByObserving(d, s, ObserveCached(0, BLANK), t);
  }

  lemma ViewIsTooOld(d: Rules, s: World)
    requires d.ownerFirst && !d.freshOnDemand && Reaches(d, s) && s.row == NewRow() && s.now == 1 && s.owner == Closed
    requires s.cluster != NOTHING && s.started == {"p"} && s.view == Some(View(1, 1, NOTHING)) && s.workers == Me(Resting)
    ensures !Safe(d)
  {
    Claims(d, s);
    var u := s.(row := TakenRow(), workers := Me(Holding(TakenWork())));
    Asks(d, u, ["p"]);
    var c := ClosedAnswer(["p"]);
    var w := Enrich(TakenWork(), c);
    UsesView(d, u.(workers := Me(Asked(w, c))), w, c);
    EndsUnsafe(d, u.(workers := Me(Ready(w, c, Seen(BLANK)))), ["p"]);
  }

  lemma StaleRelationsAreUnsafe(d: Rules)
    requires d.ownerFirst && !d.freshOnDemand
    ensures !Safe(d)
  {
    StartIsReached(d);
    Audits(d, Start());
    var s := Start().(view := Some(View(1, 1, NOTHING)));
    StartsPod(d, s);
    var t := s.(cluster := Cluster({"p"}, {}, {}), started := {"p"});
    Closes(d, t);
    ViewIsTooOld(d, t.(owner := Closed));
  }

  // The Pod's card, and the card's address, left behind by a Pod that is gone.

  lemma LeavesCard(d: Rules, s: World)
    requires Reaches(d, s) && s.owner == Open && s.cluster == NOTHING && s.started == s.minted == {}
    ensures Reaches(d, s.(cluster := Cluster({}, {Card("v", "p")}, {}), started := {"p"}, minted := {"v"}))
  {
    StartsPod(d, s);
    var r := s.(cluster := Cluster({"p"}, {}, {}), started := {"p"});
    var t := r.(cluster := Cluster({"p"}, {Card("v", "p")}, {}), minted := {"v"});
    var u := t.(cluster := Cluster({}, {Card("v", "p")}, {}));
    assert ClusterStep(d, r, MakeCard(Card("v", "p")), t);
    ReachesByCluster(d, r, MakeCard(Card("v", "p")), t);
    assert ClusterStep(d, t, DropPod("p"), u);
    ReachesByCluster(d, t, DropPod("p"), u);
  }

  lemma LeavesAddress(d: Rules, s: World)
    requires !d.traces && Reaches(d, s) && s.cluster == Cluster({}, {Card("v", "p")}, {})
    ensures Reaches(d, s.(cluster := Cluster({}, {}, {Address("i", "v")})))
  {
    var t := s.(cluster := Cluster({}, {Card("v", "p")}, {Address("i", "v")}));
    var u := s.(cluster := Cluster({}, {}, {Address("i", "v")}));
    assert Card("v", "p") in s.cluster.cards;
    assert ClusterStep(d, s, MakeAddress(Address("i", "v")), t);
    ReachesByCluster(d, s, MakeAddress(Address("i", "v")), t);
    assert ClusterStep(d, t, DropCard(Card("v", "p")), u);
    ReachesByCluster(d, t, DropCard(Card("v", "p")), u);
  }

  /** From a world with something left that a closed owner's answer does not let the collection attribute. */
  lemma ReleasesOver(d: Rules, s: World, pods: seq<string>)
    requires Implemented(d) && Reaches(d, s) && s.row == NewRow() && s.now == 1 && s.owner == Open
    requires s.workers == Me(Resting) && s.cluster != NOTHING && |pods| <= 1 && "" !in pods
    requires d.acknowledges ==> s.started <= Elements(pods)
    requires Reports(Enrich(TakenWork(), ClosedAnswer(pods)), s.cluster, BLANK)
    ensures !Safe(d)
  {
    Closes(d, s);
    Claims(d, s.(owner := Closed));
    var t := s.(owner := Closed, row := TakenRow(), workers := Me(Holding(TakenWork())));
    Asks(d, t, pods);
    var c := ClosedAnswer(pods);
    var w := Enrich(TakenWork(), c);
    Collects(d, t.(workers := Me(Asked(w, c))), w, c);
    EndsUnsafe(d, t.(workers := Me(Ready(w, c, Seen(BLANK)))), pods);
  }

  /** An owner that closes without naming a Pod nobody saw leaves its card unattributed. */
  lemma UnacknowledgedPodsAreUnsafe(d: Rules)
    requires Implemented(d) && !d.acknowledges
    ensures !Safe(d)
  {
    StartIsReached(d);
    LeavesCard(d, Start());
    var s := Start().(cluster := Cluster({}, {Card("v", "p")}, {}), started := {"p"}, minted := {"v"});
    var w := Enrich(TakenWork(), ClosedAnswer([]));
    assert Known(w) == {} && OwnedCards(w, s.cluster) == {} && CardsInSight(w, s.cluster) == {};
    assert OwnedAddresses(w, s.cluster) == {};
    ReleasesOver(d, s, []);
  }

  /** A card that goes unwitnessed before its address leaves the address unattributed. */
  lemma UntracedCardsAreUnsafe(d: Rules)
    requires Implemented(d) && !d.traces
    ensures !Safe(d)
  {
    StartIsReached(d);
    LeavesCard(d, Start());
    var r := Start().(cluster := Cluster({}, {Card("v", "p")}, {}), started := {"p"}, minted := {"v"});
    LeavesAddress(d, r);
    var s := r.(cluster := Cluster({}, {}, {Address("i", "v")}));
    var w := Enrich(TakenWork(), ClosedAnswer(["p"]));
    assert OwnedCards(w, s.cluster) == {} && CardsInSight(w, s.cluster) == {} && OwnedAddresses(w, s.cluster) == {};
    ReleasesOver(d, s, ["p"]);
  }

  /** Safety needs exactly the two decisions of the design and the two habits of its surroundings. */
  lemma SafeExactly(d: Rules)
    ensures Safe(d) <==> d.ownerFirst && d.freshOnDemand && d.acknowledges && d.traces
  {
    if !d.ownerFirst { AskingLastIsUnsafe(d); }
    else if !d.freshOnDemand { StaleRelationsAreUnsafe(d); }
    else if !d.acknowledges { UnacknowledgedPodsAreUnsafe(d); }
    else if !d.traces { UntracedCardsAreUnsafe(d); }
    else {
      forall s | Reaches(d, s) ensures ReleasedOnlyClean(s) {
        var worlds: seq<World>, actions: seq<Action> :| Behaviour(d, worlds, actions) && worlds[|worlds| - 1] == s;
        BehaviourKeepsInv(d, worlds, actions, |worlds| - 1);
      }
    }
  }
}
