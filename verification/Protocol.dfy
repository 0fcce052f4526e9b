/**
 Any number of reconciliation workers over one attachment row, interleaved with the instance owner, the
 cluster, the provider's background collections, caller requests, notifications and crashes.

 Two choices of the design and two habits of its surroundings are parameters: whether a worker asks the
 owner before it observes, whether fresh relations are collected on demand, whether a closed owner names
 every Pod it started, and whether a card outlives its addresses until it has been witnessed.
 */
module Protocol {
  import opened Text
  import opened Evidence
  import opened Attachments
  import opened Provider
  import opened Store
  import Uuid

  /** Where a worker stands inside Step. A collection lists Pods, then cards, then addresses, each at a
      moment of its own. */
  datatype Pc =
    | Resting
    | Holding(work: Work)
    | Asked(work: Work, answer: Answer)
    | PodsListed(work: Work, answer: Answer, pods: set<string>)
    | CardsListed(work: Work, answer: Answer, pods: set<string>, cards: set<Card>)
    | Ready(work: Work, answer: Answer, observation: Observation)
    | EarlyPods(work: Work, pods: set<string>)
    | EarlyCards(work: Work, pods: set<string>, cards: set<Card>)
    | EarlyReady(work: Work, observation: Observation)

  datatype Worker = Worker(owner: string, lease: Time, pc: Pc)

  /** The collection in the background, and the last one that completed. */
  datatype Audit =
    | NoAudit
    | AuditBegun(at: Time, generation: nat)
    | AuditPods(at: Time, generation: nat, pods: set<string>)
    | AuditCards(at: Time, generation: nat, pods: set<string>, cards: set<Card>)

  datatype View = View(at: Time, generation: nat, seen: Cluster)

  /** What a releasing Step went by: the Pods it knew of and the cards witnessed until then. */
  datatype Account = Account(pods: set<string>, cards: set<string>)

  /** `started` holds every Pod the owner ever started, `minted` the UID of every card there ever was,
      `settled` the account of the Step that released the row. */
  datatype World = World(now: Time, row: Row, owner: SubmissionState, cluster: Cluster, started: set<string>,
                         minted: set<string>, settled: Account, audit: Audit, view: Option<View>, workers: seq<Worker>)

  datatype Rules = Rules(ownerFirst: bool, freshOnDemand: bool, acknowledges: bool, traces: bool)

  /** The order and the demand the worker implements. */
  predicate Implemented(d: Rules) { d.ownerFirst && d.freshOnDemand }

  datatype Action =
    | Tick(elapsed: Time)
    | OwnerAdvances
    | MakePod(uid: string) | DropPod(uid: string)
    | MakeCard(card: Card) | DropCard(card: Card)
    | MakeAddress(address: Address) | DropAddress(address: Address)
    | AuditBegins | AuditListsPods | AuditListsCards | AuditEnds | AuditFails
    | Notify
    | AskConfirm(confirm: ConfirmRequest)
    | AskRelease(release: ReleaseRequest)
    | TakeClaim(i: nat)
    | AskOwner(i: nat, answer: Answer)
    | ObserveFails(i: nat, kind: ProviderFailure)
    | ObserveCached(i: nat, seen: Observed)
    | ListPods(i: nat)
    | ListCards(i: nat)
    | ListAddresses(i: nat, seen: Observed)
    | Commit(i: nat)
    | Crash(i: nat)

  function At(s: World, i: nat, pc: Pc): World
    requires i < |s.workers|
  {
    s.(workers := s.workers[i := s.workers[i].(pc := pc)])
  }

  /** The owner does not claim to be closed before it is, and if it acknowledges its Pods it then names
      all it ever started. Everything else it says is free. */
  predicate Truthful(d: Rules, s: World, c: Answer) {
    c.Said? && c.value.state == Closed && c.value.identity == s.row.att.identity ==>
      s.owner == Closed && (d.acknowledges ==> s.started <= Elements(c.value.podUIDs))
  }

  /** Where cards and addresses come from: a live owner, or a sibling of the same owner. */
  predicate CardArises(c: Cluster, card: Card) { card.pod in c.pods || exists d :: d in c.cards && d.pod == card.pod }

  predicate AddressArises(c: Cluster, x: Address) {
    (exists d :: d in c.cards && d.uid == x.card) || exists y :: y in c.addresses && y.card == x.card
  }

  /** A traced card goes before its addresses only once the row remembers it. */
  predicate MayGo(d: Rules, s: World, card: Card) {
    d.traces ==> card.uid in s.row.relations.cards || forall x :: x in s.cluster.addresses ==> x.card != card.uid
  }

  predicate OwnerStep(s: World, a: Action, t: World) {
    match a
    case Tick(elapsed) => t == s.(now := s.now + elapsed)
    case OwnerAdvances =>
      || (s.owner == Open && t == s.(owner := Closing))
      || (s.owner == Closing && t == s.(owner := Closed))
    case _ => false
  }

  /** A closed owner starts no Pod. Card UIDs are never used twice. */
  predicate ClusterStep(d: Rules, s: World, a: Action, t: World) {
    var c := s.cluster;
    match a
    case MakePod(uid) =>
      s.owner != Closed && t == s.(cluster := c.(pods := c.pods + {uid}), started := s.started + {uid})
    case DropPod(uid) => t == s.(cluster := c.(pods := c.pods - {uid}))
    case MakeCard(card) =>
      && CardArises(c, card) && card.uid !in s.minted
      && t == s.(cluster := c.(cards := c.cards + {card}), minted := s.minted + {card.uid})
    case DropCard(card) => MayGo(d, s, card) && t == s.(cluster := c.(cards := c.cards - {card}))
    case MakeAddress(x) => AddressArises(c, x) && t == s.(cluster := c.(addresses := c.addresses + {x}))
    case DropAddress(x) => t == s.(cluster := c.(addresses := c.addresses - {x}))
    case _ => false
  }

  predicate EnvironmentStep(d: Rules, s: World, a: Action, t: World) { OwnerStep(s, a, t) || ClusterStep(d, s, a, t) }

  /** The generation is read before the listings begin; a completed collection becomes the view. */
  predicate AuditStep(s: World, a: Action, t: World) {
    match a
    case AuditBegins => t == s.(audit := AuditBegun(s.now, s.row.requested))
    case AuditListsPods =>
      s.audit.AuditBegun? && t == s.(audit := AuditPods(s.audit.at, s.audit.generation, s.cluster.pods))
    case AuditListsCards =>
      s.audit.AuditPods? && t == s.(audit := AuditCards(s.audit.at, s.audit.generation, s.audit.pods, s.cluster.cards))
    case AuditEnds =>
      && s.audit.AuditCards?
      && var seen := Cluster(s.audit.pods, s.audit.cards, s.cluster.addresses);
         t == s.(audit := NoAudit, view := Some(View(s.audit.at, s.audit.generation, seen)))
    case AuditFails => t == s.(audit := NoAudit)
    case _ => false
  }

  predicate RequestStep(s: World, a: Action, t: World) {
    match a
    case Notify => t == s.(row := s.row.(requested := s.row.requested + 1))
    case AskConfirm(q) => t == s.(row := match Confirm(s.row, q) case Accepted(r) => r case Refused(_) => s.row)
    case AskRelease(q) => t == s.(row := match Release(s.row, q) case Accepted(r) => r case Refused(_) => s.row)
    case _ => false
  }

  predicate ClaimStep(s: World, a: Action, t: World) {
    && a.TakeClaim? && a.i < |s.workers| && s.workers[a.i].pc.Resting?
    && Admissible(s.workers[a.i].owner) && Claimable(s.row, s.now)
    && var me := s.workers[a.i];
       var row := ClaimedRow(s.row, me.owner, me.lease, s.now);
       t == At(s.(row := row), a.i, Holding(WorkOf(row, me.owner, s.now)))
  }

  predicate AskStep(d: Rules, s: World, a: Action, t: World) {
    && a.AskOwner? && a.i < |s.workers| && Truthful(d, s, a.answer)
    && var pc := s.workers[a.i].pc;
       if d.ownerFirst then pc.Holding? && t == At(s, a.i, Asked(Enrich(pc.work, a.answer), a.answer))
       else pc.EarlyReady? && t == At(s, a.i, Ready(Enrich(pc.work, a.answer), a.answer, pc.observation))
  }

  /** Asking the provider may fail at any moment; a contradiction among the objects is such a failure. */
  predicate FailStep(s: World, a: Action, t: World) {
    && a.ObserveFails? && a.i < |s.workers|
    && match s.workers[a.i].pc
       case Asked(w, c) => t == At(s, a.i, Ready(w, c, Failed(a.kind)))
       case PodsListed(w, c, _) => t == At(s, a.i, Ready(w, c, Failed(a.kind)))
       case CardsListed(w, c, _, _) => t == At(s, a.i, Ready(w, c, Failed(a.kind)))
       case _ => false
  }

  /** Without a demand for fresh relations the provider answers from its last completed collection. */
  predicate CacheStep(d: Rules, s: World, a: Action, t: World) {
    && a.ObserveCached? && a.i < |s.workers| && s.view.Some?
    && var pc := s.workers[a.i].pc;
       && pc.Asked? && (!pc.work.requireFresh || !d.freshOnDemand)
       && Reports(pc.work, s.view.value.seen, a.seen)
       && a.seen.proof.collectedAt == s.view.value.at && a.seen.proof.coveredGeneration == s.view.value.generation
       && t == At(s, a.i, Ready(pc.work, pc.answer, Seen(a.seen)))
  }

  predicate ListPodsStep(d: Rules, s: World, a: Action, t: World) {
    && a.ListPods? && a.i < |s.workers|
    && match s.workers[a.i].pc
       case Asked(w, c) => t == At(s, a.i, PodsListed(w, c, s.cluster.pods))
       case Holding(w) => !d.ownerFirst && t == At(s, a.i, EarlyPods(w, s.cluster.pods))
       case _ => false
  }

  predicate ListCardsStep(s: World, a: Action, t: World) {
    && a.ListCards? && a.i < |s.workers|
    && match s.workers[a.i].pc
       case PodsListed(w, c, pods) => t == At(s, a.i, CardsListed(w, c, pods, s.cluster.cards))
       case EarlyPods(w, pods) => t == At(s, a.i, EarlyCards(w, pods, s.cluster.cards))
       case _ => false
  }

  predicate ListAddressesStep(s: World, a: Action, t: World) {
    && a.ListAddresses? && a.i < |s.workers|
    && match s.workers[a.i].pc
       case CardsListed(w, c, pods, cards) =>
         Reports(w, Cluster(pods, cards, s.cluster.addresses), a.seen) && t == At(s, a.i, Ready(w, c, Seen(a.seen)))
       case EarlyCards(w, pods, cards) =>
         Reports(w, Cluster(pods, cards, s.cluster.addresses), a.seen) && t == At(s, a.i, EarlyReady(w, Seen(a.seen)))
       case _ => false
  }

  predicate ObserveStep(d: Rules, s: World, a: Action, t: World) {
    || FailStep(s, a, t) || CacheStep(d, s, a, t)
    || ListPodsStep(d, s, a, t) || ListCardsStep(s, a, t) || ListAddressesStep(s, a, t)
  }

  /** What finishing leaves behind: the written row, or the row as it was. */
  function AfterFinish(r: Row, f: Finished): Row { if f.Committed? then f.row else r }

  function AccountOf(w: Work): Account { Account(Known(w), w.relations.cards) }

  /** The row after a finish, and the account settled if it released the row. */
  function Committing(s: World, w: Work, f: Finished): World {
    var row := AfterFinish(s.row, f);
    s.(row := row, settled := if row.att.state == Released && s.row.att.state != Released then AccountOf(w) else s.settled)
  }

  predicate FinishStep(s: World, a: Action, t: World) {
    match a
    case Commit(i) =>
      && i < |s.workers| && s.workers[i].pc.Ready?
      && var Ready(w, c, o) := s.workers[i].pc;
         t == At(Committing(s, w, Finish(s.row, w, Decide(w, c, o), s.now)), i, Resting)
    case Crash(i) => i < |s.workers| && t == At(s, i, Resting)
    case _ => false
  }

  predicate Next(d: Rules, s: World, a: Action, t: World) {
    || EnvironmentStep(d, s, a, t) || AuditStep(s, a, t) || RequestStep(s, a, t) || ClaimStep(s, a, t)
    || AskStep(d, s, a, t) || ObserveStep(d, s, a, t) || FinishStep(s, a, t)
  }

  predicate Init(s: World) {
    && Prepared(s.row) && s.row.appliedAt <= s.now && s.owner == Open && s.row.relations == NO_RELATIONS
    && s.cluster == NOTHING && s.started == s.minted == {} && s.settled == Account({}, {})
    && s.audit == NoAudit && s.view.None?
    && forall i :: 0 <= i < |s.workers| ==> s.workers[i].pc == Resting
  }

  /** A finite run from an initial world. */
  ghost predicate Behaviour(d: Rules, worlds: seq<World>, actions: seq<Action>) {
    && |worlds| == |actions| + 1 && Init(worlds[0])
    && forall k {:trigger actions[k]} :: 0 <= k < |actions| ==> Next(d, worlds[k], actions[k], worlds[k + 1])
  }

  /** The owner is closed and nothing is left in the cluster. */
  predicate Clean(s: World) { s.owner == Closed && s.cluster == NOTHING }

  predicate ReleasedOnlyClean(s: World) { s.row.att.state == Released ==> Clean(s) }

  /** No card of these Pods or with these UIDs. */
  predicate CardsClear(acc: Account, cards: set<Card>) {
    forall c :: c in cards ==> c.pod !in acc.pods && c.uid !in acc.cards
  }

  predicate AddressesClear(acc: Account, addresses: set<Address>) { forall x :: x in addresses ==> x.card !in acc.cards }

  /** No Pod, and nothing an account could attribute. */
  predicate NothingOf(acc: Account, c: Cluster) { c.pods == {} && CardsClear(acc, c.cards) && AddressesClear(acc, c.addresses) }

  // -------- the invariant of the implemented design --------

  /** The claimed copy agrees with the row as long as the fence would still let it through. */
  predicate Current(r: Row, w: Work) {
    && w.attachment.identity == r.att.identity
    && w.epoch <= r.epoch && w.attachment.version <= r.att.version
    && w.requirement.requestedGeneration <= r.requested
    && (w.epoch == r.epoch && w.attachment.version == r.att.version ==>
          && w.attachment == r.att && w.blocked == r.blocked && w.relations == r.relations
          && w.requirement.appliedAt == r.appliedAt && w.requirement.hash == r.hash)
  }

  predicate Plain(w: Work) { !w.requireFresh && w.consumerPodUIDs == [] }

  predicate Enriched(w: Work, c: Answer) { w == Enrich(w.(requireFresh := false, consumerPodUIDs := []), c) }

  predicate Carried(s: World, owner: string, w: Work) {
    Current(s.row, w) && w.owner == owner && w.relations.cards <= s.minted
  }

  /** Demanding fresh relations means the owner has been seen closed, and if it acknowledges, with all its Pods. */
  predicate DemandJustified(d: Rules, s: World, w: Work) {
    w.requireFresh ==> s.owner == Closed && (d.acknowledges ==> s.started <= Known(w))
  }

  function UIDs(cards: set<Card>): set<string> { set c | c in cards :: c.uid }

  predicate Remembers(s: World, w: Work, o: Observation) {
    o.Seen? ==> w.relations.cards <= o.value.relations.cards <= s.minted
  }

  predicate PcInv(d: Rules, s: World, owner: string, pc: Pc) {
    match pc
    case Resting => true
    case Holding(w) => Carried(s, owner, w) && Plain(w)
    case Asked(w, c) => Carried(s, owner, w) && Enriched(w, c) && DemandJustified(d, s, w)
    case PodsListed(w, c, pods) =>
      && Carried(s, owner, w) && Enriched(w, c) && DemandJustified(d, s, w)
      && (w.requireFresh && pods == {} ==> s.cluster.pods == {})
    case CardsListed(w, c, pods, cards) =>
      && Carried(s, owner, w) && Enriched(w, c) && DemandJustified(d, s, w) && UIDs(cards) <= s.minted
      && (w.requireFresh && pods == {} ==>
            && s.cluster.pods == {}
            && (CardsClear(AccountOf(w), cards) ==> CardsClear(AccountOf(w), s.cluster.cards)))
    case Ready(w, c, o) =>
      && Carried(s, owner, w) && Enriched(w, c) && DemandJustified(d, s, w) && Remembers(s, w, o)
      && (w.requireFresh && o.Seen? && !Residual(o.value) ==> NothingOf(AccountOf(w), s.cluster))
    case _ => false
  }

  predicate WorkersInv(d: Rules, s: World) {
    forall i :: 0 <= i < |s.workers| ==> PcInv(d, s, s.workers[i].owner, s.workers[i].pc)
  }

  /** Everything has a history. */
  predicate Grounded(s: World) {
    && s.cluster.pods <= s.started && UIDs(s.cluster.cards) <= s.minted
    && (forall c :: c in s.cluster.cards ==> c.pod in s.started)
    && s.row.relations.cards <= s.minted && s.settled.cards <= s.minted
    && (s.audit.AuditCards? ==> UIDs(s.audit.cards) <= s.minted)
    && (s.view.Some? ==> UIDs(s.view.value.seen.cards) <= s.minted)
  }

  /** Every address has a live or a remembered card. */
  predicate Traced(s: World) {
    forall x :: x in s.cluster.addresses ==> x.card in s.row.relations.cards + UIDs(s.cluster.cards)
  }

  /** A released row leaves nothing its releasing Step could attribute, and nothing at all where the owner
      acknowledges its Pods and cards are traced. */
  predicate ReleasedInv(d: Rules, s: World) {
    s.row.att.state == Released ==>
      s.owner == Closed && NothingOf(s.settled, s.cluster) && (d.acknowledges && d.traces ==> Clean(s))
  }

  predicate Inv(d: Rules, s: World) {
    && RowInv(s.row) && s.row.appliedAt <= s.now && Grounded(s) && (d.traces ==> Traced(s))
    && ReleasedInv(d, s) && WorkersInv(d, s)
  }

  lemma InitInv(d: Rules, s: World)
    requires Init(s)
    ensures Inv(d, s)
  {
  }

  // -------- what the surroundings cannot undo --------

  lemma ClearStays(d: Rules, s: World, a: Action, t: World, acc: Account)
    requires ClusterStep(d, s, a, t) && s.owner == Closed && s.cluster.pods == {} && acc.cards <= s.minted
    ensures t.cluster.pods == {}
    ensures CardsClear(acc, s.cluster.cards) ==> CardsClear(acc, t.cluster.cards)
    ensures NothingOf(acc, s.cluster) ==> NothingOf(acc, t.cluster)
  {
  }

  lemma CleanStays(d: Rules, s: World, a: Action, t: World)
    requires EnvironmentStep(d, s, a, t) && Clean(s)
    ensures Clean(t)
  {
  }

  lemma ClusterKeepsPc(d: Rules, s: World, a: Action, t: World, owner: string, pc: Pc)
    requires ClusterStep(d, s, a, t) && PcInv(d, s, owner, pc)
    ensures PcInv(d, t, owner, pc)
  {
    assert t.row == s.row && s.minted <= t.minted && t.owner == s.owner && (s.owner == Closed ==> t.started == s.started);
    if !pc.Resting? && s.owner == Closed && s.cluster.pods == {} { ClearStays(d, s, a, t, AccountOf(pc.work)); }
  }

  lemma OwnerKeepsPc(d: Rules, s: World, a: Action, t: World, owner: string, pc: Pc)
    requires OwnerStep(s, a, t) && PcInv(d, s, owner, pc)
    ensures PcInv(d, t, owner, pc)
  {
  }

  lemma ClusterKeepsGround(d: Rules, s: World, a: Action, t: World)
    requires ClusterStep(d, s, a, t) && Grounded(s)
    ensures Grounded(t)
  {
  }

  lemma ClusterKeepsTraces(d: Rules, s: World, a: Action, t: World)
    requires ClusterStep(d, s, a, t) && d.traces && Traced(s)
    ensures Traced(t)
  {
    forall x | x in t.cluster.addresses ensures x.card in t.row.relations.cards + UIDs(t.cluster.cards) {
      if x in s.cluster.addresses { assert x.card in s.row.relations.cards + UIDs(s.cluster.cards); }
    }
  }

  lemma ClusterKeepsInv(d: Rules, s: World, a: Action, t: World)
    requires Inv(d, s) && ClusterStep(d, s, a, t)
    ensures Inv(d, t) && t.row == s.row
  {
    ClusterKeepsGround(d, s, a, t);
    if d.traces { ClusterKeepsTraces(d, s, a, t); }
    if s.row.att.state == Released {
      ClearStays(d, s, a, t, s.settled);
      if Clean(s) { CleanStays(d, s, a, t); }
    }
    forall i | 0 <= i < |t.workers| ensures PcInv(d, t, t.workers[i].owner, t.workers[i].pc) {
      ClusterKeepsPc(d, s, a, t, s.workers[i].owner, s.workers[i].pc);
    }
  }

  lemma EnvironmentKeepsInv(d: Rules, s: World, a: Action, t: World)
    requires Inv(d, s) && EnvironmentStep(d, s, a, t)
    ensures Inv(d, t) && t.row == s.row
  {
    if ClusterStep(d, s, a, t) { ClusterKeepsInv(d, s, a, t); }
    else {
      forall i | 0 <= i < |t.workers| ensures PcInv(d, t, t.workers[i].owner, t.workers[i].pc) {
        OwnerKeepsPc(d, s, a, t, s.workers[i].owner, s.workers[i].pc);
      }
    }
  }

  lemma AuditKeepsInv(d: Rules, s: World, a: Action, t: World)
    requires Inv(d, s) && AuditStep(s, a, t)
    ensures Inv(d, t) && t.row == s.row
  {
    forall i | 0 <= i < |t.workers| ensures PcInv(d, t, t.workers[i].owner, t.workers[i].pc) {
      assert PcInv(d, s, s.workers[i].owner, s.workers[i].pc);
    }
  }

  // -------- what a row that moves on leaves --------

  /** A row that moved on leaves every claimed copy either still current or fenced off. */
  lemma RowMovesOn(d: Rules, s: World, t: World)
    requires Inv(d, s) && Evolves(s.row, t.row) && t == s.(row := t.row, settled := t.settled)
    requires t.row.att.version == s.row.att.version && t.row.epoch == s.row.epoch ==>
               t.row == s.row.(requested := t.row.requested, lease := t.row.lease)
    ensures WorkersInv(d, t)
  {
    forall i | 0 <= i < |t.workers| ensures PcInv(d, t, t.workers[i].owner, t.workers[i].pc) {
      assert PcInv(d, s, s.workers[i].owner, s.workers[i].pc);
    }
  }

  function EventOf(s: World, a: Action): Event {
    match a
    case Notify => Notified
    case AskConfirm(q) => Confirmed(q)
    case AskRelease(q) => ReleaseAsked(q)
    case TakeClaim(i) => if i < |s.workers| then Claimed(s.workers[i].owner, s.workers[i].lease, s.now) else Idle
    case Commit(i) =>
      if i < |s.workers| && s.workers[i].pc.Ready? then
        var Ready(w, c, o) := s.workers[i].pc;
        if Finish(s.row, w, Decide(w, c, o), s.now).Committed?
        then Reconciled(Claim(w.owner, w.now, w.requirement.requestedGeneration), c, o, s.now)
        else Idle
      else Idle
    case _ => Idle
  }

  lemma RequestKeepsInv(d: Rules, s: World, a: Action, t: World)
    requires Inv(d, s) && RequestStep(s, a, t)
    ensures Inv(d, t) && Transaction(s.row, EventOf(s, a), t.row)
  {
    TransactionKeepsRow(s.row, EventOf(s, a), t.row);
    RowMovesOn(d, s, t);
  }

  /** A worker's own move concerns nobody else. */
  lemma MoveKeepsInv(d: Rules, s: World, i: nat, pc: Pc)
    requires Inv(d, s) && i < |s.workers| && PcInv(d, s, s.workers[i].owner, pc)
    ensures Inv(d, At(s, i, pc))
  {
    var t := At(s, i, pc);
    forall j | 0 <= j < |t.workers| ensures PcInv(d, t, t.workers[j].owner, t.workers[j].pc) {
      assert PcInv(d, s, s.workers[j].owner, s.workers[j].pc);
    }
  }

  lemma ClaimKeepsInv(d: Rules, s: World, a: Action, t: World)
    requires Inv(d, s) && ClaimStep(s, a, t)
    ensures Inv(d, t) && Transaction(s.row, EventOf(s, a), t.row)
  {
    TransactionKeepsRow(s.row, EventOf(s, a), t.row);
    RowMovesOn(d, s, s.(row := t.row));
    MoveKeepsInv(d, s.(row := t.row), a.i, t.workers[a.i].pc);
  }

  lemma AskKeepsInv(d: Rules, s: World, a: Action, t: World)
    requires Implemented(d) && Inv(d, s) && AskStep(d, s, a, t)
    ensures Inv(d, t) && t.row == s.row
  {
    assert PcInv(d, s, s.workers[a.i].owner, s.workers[a.i].pc);
    MoveKeepsInv(d, s, a.i, t.workers[a.i].pc);
  }

  // -------- observing --------

  /** A report with nothing in it means nothing attributable was listed. */
  lemma EmptyReportIsClear(w: Work, seen: Cluster, o: Observed)
    requires Reports(w, seen, o) && !Residual(o)
    ensures NothingOf(AccountOf(w), seen)
  {
    forall c | c in seen.cards ensures c.pod !in Known(w) && c.uid !in w.relations.cards { assert c !in OwnedCards(w, seen); }
    forall x | x in seen.addresses ensures x.card !in w.relations.cards { assert x !in OwnedAddresses(w, seen); }
  }

  /** What a report remembers are UIDs of cards there have been. */
  lemma ReportsRemember(s: World, w: Work, seen: Cluster, o: Observed)
    requires Reports(w, seen, o) && w.relations.cards <= s.minted && UIDs(seen.cards) <= s.minted
    ensures Remembers(s, w, Seen(o))
  {
    forall u | u in o.relations.cards ensures u in s.minted {
      if u !in w.relations.cards {
        var c :| c in OwnedCards(w, seen) && c.uid == u;
        assert c.uid in UIDs(seen.cards);
      }
    }
  }

  lemma CacheKeepsPc(d: Rules, s: World, a: Action, t: World)
    requires Implemented(d) && Inv(d, s) && CacheStep(d, s, a, t)
    ensures PcInv(d, s, s.workers[a.i].owner, t.workers[a.i].pc)
  {
    assert PcInv(d, s, s.workers[a.i].owner, s.workers[a.i].pc);
    ReportsRemember(s, s.workers[a.i].pc.work, s.view.value.seen, a.seen);
  }

  lemma ListingKeepsPc(d: Rules, s: World, a: Action, t: World)
    requires Implemented(d) && Inv(d, s) && ListAddressesStep(s, a, t)
    ensures PcInv(d, s, s.workers[a.i].owner, t.workers[a.i].pc)
  {
    assert PcInv(d, s, s.workers[a.i].owner, s.workers[a.i].pc);
    var CardsListed(w, c, pods, cards) := s.workers[a.i].pc;
    var seen := Cluster(pods, cards, s.cluster.addresses);
    ReportsRemember(s, w, seen, a.seen);
    if !Residual(a.seen) { EmptyReportIsClear(w, seen, a.seen); }
  }

  lemma FailKeepsPc(d: Rules, s: World, a: Action, t: World)
    requires Inv(d, s) && FailStep(s, a, t)
    ensures PcInv(d, s, s.workers[a.i].owner, t.workers[a.i].pc)
  {
    assert PcInv(d, s, s.workers[a.i].owner, s.workers[a.i].pc);
  }

  lemma PodsListingKeepsPc(d: Rules, s: World, a: Action, t: World)
    requires Implemented(d) && Inv(d, s) && ListPodsStep(d, s, a, t)
    ensures PcInv(d, s, s.workers[a.i].owner, t.workers[a.i].pc)
  {
    assert PcInv(d, s, s.workers[a.i].owner, s.workers[a.i].pc);
  }

  lemma CardsListingKeepsPc(d: Rules, s: World, a: Action, t: World)
    requires Inv(d, s) && ListCardsStep(s, a, t)
    ensures PcInv(d, s, s.workers[a.i].owner, t.workers[a.i].pc)
  {
    assert PcInv(d, s, s.workers[a.i].owner, s.workers[a.i].pc);
  }

  lemma ObserveMoves(d: Rules, s: World, a: Action, t: World)
    requires ObserveStep(d, s, a, t)
    ensures t == At(s, a.i, t.workers[a.i].pc)
  {
  }

  lemma ObserveKeepsInv(d: Rules, s: World, a: Action, t: World)
    requires Implemented(d) && Inv(d, s) && ObserveStep(d, s, a, t)
    ensures Inv(d, t) && t.row == s.row
  {
    ObserveMoves(d, s, a, t);
    assert PcInv(d, s, s.workers[a.i].owner, t.workers[a.i].pc) by {
      if FailStep(s, a, t) { FailKeepsPc(d, s, a, t); }
      else if CacheStep(d, s, a, t) { CacheKeepsPc(d, s, a, t); }
      else if ListPodsStep(d, s, a, t) { PodsListingKeepsPc(d, s, a, t); }
      else if ListCardsStep(s, a, t) { CardsListingKeepsPc(d, s, a, t); }
      else { ListingKeepsPc(d, s, a, t); }
    }
    MoveKeepsInv(d, s, a.i, t.workers[a.i].pc);
  }

  // -------- finishing --------

  /** Passing the fence means nothing changed since the claim: the Step is atomic. */
  lemma FinishIsAtomic(s: World, w: Work, c: Answer, o: Observation)
    requires Current(s.row, w) && Enriched(w, c)
    requires Finish(s.row, w, Decide(w, c, o), s.now).Committed?
    ensures w == FreshWork(s.row, Claim(w.owner, w.now, w.requirement.requestedGeneration), c)
    ensures Finish(s.row, w, Decide(w, c, o), s.now)
         == Atomically(s.row, Claim(w.owner, w.now, w.requirement.requestedGeneration), c, o, s.now)
  {
  }

  /** A Step that releases the row had demanded, and got, a fresh collection with nothing attributable in it. */
  lemma NewReleaseLeavesNothing(d: Rules, s: World, w: Work, c: Answer, o: Observation)
    requires Inv(d, s) && PcInv(d, s, w.owner, Ready(w, c, o))
    requires w.attachment == s.row.att && s.row.att.state != Released && NextState(w, c, o) == Released
    ensures w.requireFresh && s.owner == Closed && NothingOf(AccountOf(w), s.cluster)
  {
  }

  /** Nothing attributable is nothing at all, where every Pod is acknowledged and every card traced. */
  lemma NothingIsClean(s: World, w: Work)
    requires Grounded(s) && Traced(s) && s.owner == Closed && NothingOf(AccountOf(w), s.cluster)
    requires s.started <= Known(w) && w.relations == s.row.relations
    ensures Clean(s)
  {
    assert forall c :: c in s.cluster.cards ==> c.pod in Known(w);
    assert s.cluster.cards == {} && UIDs(s.cluster.cards) == {};
    assert forall x :: x in s.cluster.addresses ==> x.card in w.relations.cards;
  }

  lemma CommitKeepsReleased(d: Rules, s: World, w: Work, c: Answer, o: Observation)
    requires Inv(d, s) && PcInv(d, s, w.owner, Ready(w, c, o))
    requires Finish(s.row, w, Decide(w, c, o), s.now).Committed?
    ensures ReleasedInv(d, Committing(s, w, Finish(s.row, w, Decide(w, c, o), s.now)))
  {
    FinishIsAtomic(s, w, c, o);
    var t := Committing(s, w, Finish(s.row, w, Decide(w, c, o), s.now));
    if t.row.att.state == Released && s.row.att.state != Released {
      NewReleaseLeavesNothing(d, s, w, c, o);
      if d.acknowledges && d.traces { NothingIsClean(s, w); }
    }
  }

  /** Commits remember what the row remembered, and more. */
  lemma CommitRemembers(s: World, w: Work, c: Answer, o: Observation)
    requires Current(s.row, w) && Enriched(w, c) && Remembers(s, w, o) && w.relations.cards <= s.minted
    requires Finish(s.row, w, Decide(w, c, o), s.now).Committed?
    ensures s.row.relations.cards <= Finish(s.row, w, Decide(w, c, o), s.now).row.relations.cards <= s.minted
  {
  }

  lemma CommitKeepsInv(d: Rules, s: World, w: Work, c: Answer, o: Observation)
    requires Inv(d, s) && PcInv(d, s, w.owner, Ready(w, c, o))
    requires Finish(s.row, w, Decide(w, c, o), s.now).Committed?
    ensures var t := Committing(s, w, Finish(s.row, w, Decide(w, c, o), s.now));
            Inv(d, t) && Transaction(s.row, Reconciled(Claim(w.owner, w.now, w.requirement.requestedGeneration), c, o, s.now), t.row)
  {
    var claim := Claim(w.owner, w.now, w.requirement.requestedGeneration);
    var t := Committing(s, w, Finish(s.row, w, Decide(w, c, o), s.now));
    FinishIsAtomic(s, w, c, o);
    CommitRemembers(s, w, c, o);
    TransactionKeepsRow(s.row, Reconciled(claim, c, o, s.now), t.row);
    RowMovesOn(d, s, t);
    CommitKeepsReleased(d, s, w, c, o);
  }

  lemma FinishKeepsInv(d: Rules, s: World, a: Action, t: World)
    requires Inv(d, s) && FinishStep(s, a, t)
    ensures Inv(d, t) && Transaction(s.row, EventOf(s, a), t.row)
  {
    if a.Commit? {
      var Ready(w, c, o) := s.workers[a.i].pc;
      assert PcInv(d, s, s.workers[a.i].owner, s.workers[a.i].pc);
      var f := Finish(s.row, w, Decide(w, c, o), s.now);
      if f.Committed? { CommitKeepsInv(d, s, w, c, o); }
      MoveKeepsInv(d, Committing(s, w, f), a.i, Resting);
    } else {
      MoveKeepsInv(d, s, a.i, Resting);
    }
  }

  /** The surroundings, asking and observing leave the row alone. */
  lemma ReadingKeepsInv(d: Rules, s: World, a: Action, t: World)
    requires Implemented(d) && Inv(d, s)
    requires EnvironmentStep(d, s, a, t) || AuditStep(s, a, t) || AskStep(d, s, a, t) || ObserveStep(d, s, a, t)
    ensures Inv(d, t) && t.row == s.row
  {
    if EnvironmentStep(d, s, a, t) { EnvironmentKeepsInv(d, s, a, t); }
    else if AuditStep(s, a, t) { AuditKeepsInv(d, s, a, t); }
    else if AskStep(d, s, a, t) { AskKeepsInv(d, s, a, t); }
    else { ObserveKeepsInv(d, s, a, t); }
  }

  lemma IdleEvent(d: Rules, s: World, a: Action, t: World)
    requires EnvironmentStep(d, s, a, t) || AuditStep(s, a, t) || AskStep(d, s, a, t) || ObserveStep(d, s, a, t)
    ensures EventOf(s, a) == Idle
  {
  }

  /** Every step of the implemented design keeps the invariant and is one transaction on the row. */
  lemma NextKeepsInv(d: Rules, s: World, a: Action, t: World)
    requires Implemented(d) && Inv(d, s) && Next(d, s, a, t)
    ensures Inv(d, t) && Transaction(s.row, EventOf(s, a), t.row)
  {
    if RequestStep(s, a, t) { RequestKeepsInv(d, s, a, t); }
    else if ClaimStep(s, a, t) { ClaimKeepsInv(d, s, a, t); }
    else if FinishStep(s, a, t) { FinishKeepsInv(d, s, a, t); }
    else {
      IdleEvent(d, s, a, t);
      ReadingKeepsInv(d, s, a, t);
    }
  }

  lemma {:induction false} BehaviourKeepsInv(d: Rules, worlds: seq<World>, actions: seq<Action>, k: nat)
    requires Implemented(d) && Behaviour(d, worlds, actions) && k < |worlds|
    ensures Inv(d, worlds[k])
  {
    if k == 0 { InitInv(d, worlds[0]); }
    else {
      BehaviourKeepsInv(d, worlds, actions, k - 1);
      NextKeepsInv(d, worlds[k - 1], actions[k - 1], worlds[k]);
    }
  }
}
