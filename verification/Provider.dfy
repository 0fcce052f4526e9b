/**
 What the provider reports of an attachment: which of the listed Pods, network cards and addresses it
 attributes to it, which contradictions it refuses, and which UIDs it remembers. First by UID, as the
 protocol needs it; then over the listed objects with their names and references, as written.
 */
module Provider {
  import opened Text
  import opened Attachments

  // -------- by UID --------

  /** A network card and the Pod that owns it. */
  datatype Card = Card(uid: string, pod: string)

  /** An address and the card that owns it. */
  datatype Address = Address(uid: string, card: string)

  /** Pods labelled with this attachment, and cards and addresses with their owners. */
  datatype Cluster = Cluster(pods: set<string>, cards: set<Card>, addresses: set<Address>)

  const NOTHING := Cluster({}, {}, {})

  function Elements<T>(xs: seq<T>): set<T> { set x | x in xs }

  /** The Pods a claimed row and the owner's answer name. */
  function Known(w: Work): set<string> {
    (if w.attachment.podUID == "" then {} else {w.attachment.podUID}) + Elements(w.consumerPodUIDs)
  }

  function OwnedCards(w: Work, seen: Cluster): set<Card> { set c | c in seen.cards && c.pod in Known(w) + seen.pods }

  /** Every card UID witnessed so far or owned now. */
  function CardsInSight(w: Work, seen: Cluster): set<string> {
    w.relations.cards + set c | c in OwnedCards(w, seen) :: c.uid
  }

  function OwnedAddresses(w: Work, seen: Cluster): set<Address> {
    set x | x in seen.addresses && x.card in CardsInSight(w, seen)
  }

  /** Anything remembered that turns up again is still owned. */
  predicate Unambiguous(w: Work, seen: Cluster) {
    && (forall c :: c in seen.cards && c.uid in w.relations.cards ==> c in OwnedCards(w, seen))
    && (forall x :: x in seen.addresses && x.uid in w.relations.addresses ==> x in OwnedAddresses(w, seen))
  }

  /** An answer drawn from these listings. Dependencies of other kinds may be reported on top. */
  predicate Reports(w: Work, seen: Cluster, o: Observed) {
    && Unambiguous(w, seen)
    && (o.present <==> seen.pods != {})
    && (o.present ==> seen.pods == {o.podUID} && (w.attachment.podUID == "" || w.attachment.podUID == o.podUID))
    && (OwnedCards(w, seen) != {} || OwnedAddresses(w, seen) != {} ==> o.hasDependencies)
    && o.relations == Relations(CardsInSight(w, seen),
                                w.relations.addresses + set x | x in OwnedAddresses(w, seen) :: x.uid)
  }

  // -------- over the listed objects --------

  /** `sound` gathers the checks on kind, namespace, labels, annotations and subnet that need no other object. */
  datatype Pod = Pod(name: string, uid: string, labelled: bool, sound: bool, cardRef: string, addressRef: string)
  datatype VNic = VNic(name: string, uid: string, owner: string, annotated: set<string>, sound: bool)
  datatype VNicIP = VNicIP(name: string, uid: string, owner: string, ref: string, statusRef: string, sound: bool)

  /** Remembered objects, UID by name. */
  datatype Tracked = Tracked(cards: map<string, string>, addresses: map<string, string>)

  datatype Ask = Ask(podName: string, podUID: string, consumerPodUIDs: seq<string>, prior: Tracked)

  datatype Finding = Finding(present: bool, podName: string, podUID: string, hasDependencies: bool, tracked: Tracked)

  function AskedPods(q: Ask): set<string> { (if q.podUID == "" then {} else {q.podUID}) + Elements(q.consumerPodUIDs) }

  predicate IsCandidate(q: Ask, o: Pod) {
    o.labelled || o.uid in AskedPods(q) || (q.podName != "" && o.name == q.podName)
  }

  predicate PodFits(q: Ask, o: Pod) { o.labelled && o.sound && (q.podUID == "" || q.podUID == o.uid) }

  /** At most one candidate, and it is this attachment's Pod. */
  predicate PodsFit(q: Ask, pods: seq<Pod>) {
    && (forall i :: 0 <= i < |pods| && IsCandidate(q, pods[i]) ==> PodFits(q, pods[i]))
    && (forall i, j :: 0 <= i < j < |pods| && IsCandidate(q, pods[i]) ==> !IsCandidate(q, pods[j]))
  }

  function ThePod(q: Ask, pods: seq<Pod>): (pod: Option<Pod>)
    ensures pod.Some? ==> pod.value in pods && IsCandidate(q, pod.value)
    ensures pod.None? ==> forall i :: 0 <= i < |pods| ==> !IsCandidate(q, pods[i])
  {
    if |pods| == 0 then None
    else if IsCandidate(q, pods[|pods| - 1]) then Some(pods[|pods| - 1])
    else ThePod(q, pods[..|pods| - 1])
  }

  method FindPod(q: Ask, pods: seq<Pod>) returns (ok: bool, pod: Option<Pod>)
    ensures ok <==> PodsFit(q, pods)
    ensures ok ==> pod == ThePod(q, pods)
  {
    ok, pod := true, None;
    for n := 0 to |pods|
      invariant PodsFit(q, pods[..n]) && pod == ThePod(q, pods[..n])
    {
      var o := pods[n];
      assert pods[..n + 1][..n] == pods[..n];
      if IsCandidate(q, o) {
        if pod.Some? || !PodFits(q, o) {
          ok := false;
          assert pod.Some? ==> pod.value in pods[..n];
          return;
        }
        pod := Some(o);
      }
    }
    assert pods[..|pods|] == pods;
  }

  function PodsInSight(q: Ask, pod: Option<Pod>): set<string> {
    AskedPods(q) + if pod.Some? then {pod.value.uid} else {}
  }

  predicate CardOwned(q: Ask, pod: Option<Pod>, o: VNic) { o.owner in PodsInSight(q, pod) }

  predicate CardAttributed(q: Ask, pod: Option<Pod>, o: VNic) {
    || CardOwned(q, pod, o) || o.name in q.prior.cards
    || (pod.Some? && pod.value.name != "" && pod.value.name in o.annotated) || (q.podName != "" && q.podName in o.annotated)
  }

  predicate CardFits(q: Ask, pod: Option<Pod>, o: VNic) {
    CardOwned(q, pod, o) && o.sound && (o.name in q.prior.cards ==> q.prior.cards[o.name] == o.uid)
  }

  /** No card that could be this attachment's contradicts it. */
  predicate CardsFit(q: Ask, pod: Option<Pod>, vnics: seq<VNic>) {
    forall i :: 0 <= i < |vnics| && CardAttributed(q, pod, vnics[i]) ==> CardFits(q, pod, vnics[i])
  }

  /** The API server lists each name once. */
  predicate CardNamesDistinct(vnics: seq<VNic>) { forall i, j :: 0 <= i < j < |vnics| ==> vnics[i].name != vnics[j].name }

  /** The remembered cards and those owned now. */
  function TrackCards(q: Ask, pod: Option<Pod>, vnics: seq<VNic>): map<string, string> {
    if |vnics| == 0 then q.prior.cards
    else
      var last, before := vnics[|vnics| - 1], TrackCards(q, pod, vnics[..|vnics| - 1]);
      if CardOwned(q, pod, last) then before[last.name := last.uid] else before
  }

  function LiveCards(q: Ask, pod: Option<Pod>, vnics: seq<VNic>): set<string> {
    set i | 0 <= i < |vnics| && CardOwned(q, pod, vnics[i]) :: vnics[i].name
  }

  method FindCards(q: Ask, pod: Option<Pod>, vnics: seq<VNic>) returns (ok: bool, tracked: map<string, string>, live: set<string>)
    requires CardNamesDistinct(vnics)
    ensures ok <==> CardsFit(q, pod, vnics)
    ensures ok ==> tracked == TrackCards(q, pod, vnics) && live == LiveCards(q, pod, vnics)
  {
    ok, tracked, live := true, q.prior.cards, {};
    for n := 0 to |vnics|
      invariant CardsFit(q, pod, vnics[..n])
      invariant tracked == TrackCards(q, pod, vnics[..n]) && live == LiveCards(q, pod, vnics[..n])
    {
      var o := vnics[n];
      assert vnics[..n + 1] == vnics[..n] + [o] && vnics[..n + 1][..n] == vnics[..n];
      CardNameIsPrior(q, pod, vnics[..n], o.name);
      if CardAttributed(q, pod, o) {
        if !CardOwned(q, pod, o) || !o.sound || (o.name in tracked && tracked[o.name] != o.uid) {
          ok := false;
          return;
        }
        tracked, live := tracked[o.name := o.uid], live + {o.name};
      }
    }
    assert vnics[..|vnics|] == vnics;
  }

  /** A name no listed card bears is tracked exactly if it was remembered, and as remembered. */
  lemma {:induction false} CardNameIsPrior(q: Ask, pod: Option<Pod>, vnics: seq<VNic>, name: string)
    requires forall i :: 0 <= i < |vnics| ==> vnics[i].name != name
    ensures name in TrackCards(q, pod, vnics) <==> name in q.prior.cards
    ensures name in q.prior.cards ==> TrackCards(q, pod, vnics)[name] == q.prior.cards[name]
  {
    if |vnics| > 0 { CardNameIsPrior(q, pod, vnics[..|vnics| - 1], name); }
  }

  /** Nothing remembered is forgotten, everything owned is remembered, and nothing else is. */
  lemma {:induction false} TracksExactly(q: Ask, pod: Option<Pod>, vnics: seq<VNic>)
    requires CardNamesDistinct(vnics) && CardsFit(q, pod, vnics)
    ensures TrackCards(q, pod, vnics).Values
         == q.prior.cards.Values + set i | 0 <= i < |vnics| && CardOwned(q, pod, vnics[i]) :: vnics[i].uid
  {
    if |vnics| > 0 {
      var n := |vnics| - 1;
      var before, o := vnics[..n], vnics[n];
      TracksExactly(q, pod, before);
      CardNameIsPrior(q, pod, before, o.name);
      if CardOwned(q, pod, o) { ValuesGrow(TrackCards(q, pod, before), o.name, o.uid); }
    }
  }

  lemma ValuesGrow(m: map<string, string>, name: string, uid: string)
    requires name in m ==> m[name] == uid
    ensures m[name := uid].Values == m.Values + {uid}
  {
    var t := m[name := uid];
    assert t[name] == uid;
    forall v | v in m.Values ensures v in t.Values {
      var k :| k in m && m[k] == v;
      assert t[k] == v;
    }
  }

  // Addresses are attributed through the cards now in sight: `cards` maps their names to their UIDs.

  predicate AddressOwned(cards: map<string, string>, o: VNicIP) { o.owner in cards.Values }

  predicate Names(cards: map<string, string>, ref: string) { ref != "" && ref in cards }

  predicate AddressAttributed(q: Ask, cards: map<string, string>, o: VNicIP) {
    AddressOwned(cards, o) || o.name in q.prior.addresses || Names(cards, o.ref) || Names(cards, o.statusRef)
  }

  predicate RefFits(cards: map<string, string>, ref: string, owner: string) {
    ref != "" ==> ref in cards && cards[ref] == owner
  }

  predicate AddressFits(q: Ask, cards: map<string, string>, o: VNicIP) {
    && AddressOwned(cards, o) && o.sound && (o.name in q.prior.addresses ==> q.prior.addresses[o.name] == o.uid)
    && RefFits(cards, o.ref, o.owner) && RefFits(cards, o.statusRef, o.owner)
  }

  predicate AddressesFit(q: Ask, cards: map<string, string>, ips: seq<VNicIP>) {
    forall i :: 0 <= i < |ips| && AddressAttributed(q, cards, ips[i]) ==> AddressFits(q, cards, ips[i])
  }

  predicate AddressNamesDistinct(ips: seq<VNicIP>) { forall i, j :: 0 <= i < j < |ips| ==> ips[i].name != ips[j].name }

  function TrackAddresses(q: Ask, cards: map<string, string>, ips: seq<VNicIP>): map<string, string> {
    if |ips| == 0 then q.prior.addresses
    else
      var last, before := ips[|ips| - 1], TrackAddresses(q, cards, ips[..|ips| - 1]);
      if AddressOwned(cards, last) then before[last.name := last.uid] else before
  }

  function LiveAddresses(cards: map<string, string>, ips: seq<VNicIP>): set<string> {
    set i | 0 <= i < |ips| && AddressOwned(cards, ips[i]) :: ips[i].name
  }

  method FindAddresses(q: Ask, cards: map<string, string>, ips: seq<VNicIP>)
    returns (ok: bool, tracked: map<string, string>, live: set<string>)
    requires AddressNamesDistinct(ips)
    ensures ok <==> AddressesFit(q, cards, ips)
    ensures ok ==> tracked == TrackAddresses(q, cards, ips) && live == LiveAddresses(cards, ips)
  {
    ok, tracked, live := true, q.prior.addresses, {};
    for n := 0 to |ips|
      invariant AddressesFit(q, cards, ips[..n])
      invariant tracked == TrackAddresses(q, cards, ips[..n]) && live == LiveAddresses(cards, ips[..n])
    {
      var o := ips[n];
      AddressStep(q, cards, ips, n);
      if AddressAttributed(q, cards, o) {
        if !AddressOwned(cards, o) || !o.sound || (o.name in tracked && tracked[o.name] != o.uid)
           || !RefFits(cards, o.ref, o.owner) || !RefFits(cards, o.statusRef, o.owner) {
          assert !AddressFits(q, cards, o);
          FitsPrefix(q, cards, ips, n + 1);
          ok := false;
          return;
        }
        assert AddressFits(q, cards, o);
        tracked, live := tracked[o.name := o.uid], live + {o.name};
      }
    }
    assert ips[..|ips|] == ips;
  }

  /** What one more address adds. */
  lemma AddressStep(q: Ask, cards: map<string, string>, ips: seq<VNicIP>, n: nat)
    requires n < |ips| && AddressNamesDistinct(ips)
    ensures var o, m := ips[n], TrackAddresses(q, cards, ips[..n]);
            && TrackAddresses(q, cards, ips[..n + 1]) == (if AddressOwned(cards, o) then m[o.name := o.uid] else m)
            && LiveAddresses(cards, ips[..n + 1]) == LiveAddresses(cards, ips[..n]) + (if AddressOwned(cards, o) then {o.name} else {})
            && (AddressesFit(q, cards, ips[..n + 1]) <==>
                  AddressesFit(q, cards, ips[..n]) && (AddressAttributed(q, cards, o) ==> AddressFits(q, cards, o)))
            && (o.name in m <==> o.name in q.prior.addresses) && (o.name in m ==> m[o.name] == q.prior.addresses[o.name])
  {
    assert ips[..n + 1] == ips[..n] + [ips[n]] && ips[..n + 1][..n] == ips[..n];
    AddressNameIsPrior(q, cards, ips[..n], ips[n].name);
  }

  lemma FitsPrefix(q: Ask, cards: map<string, string>, ips: seq<VNicIP>, n: nat)
    requires n <= |ips| && !AddressesFit(q, cards, ips[..n])
    ensures !AddressesFit(q, cards, ips)
  {
  }

  lemma {:induction false} AddressNameIsPrior(q: Ask, cards: map<string, string>, ips: seq<VNicIP>, name: string)
    requires forall i :: 0 <= i < |ips| ==> ips[i].name != name
    ensures name in TrackAddresses(q, cards, ips) <==> name in q.prior.addresses
    ensures name in q.prior.addresses ==> TrackAddresses(q, cards, ips)[name] == q.prior.addresses[name]
  {
    if |ips| > 0 { AddressNameIsPrior(q, cards, ips[..|ips| - 1], name); }
  }

  lemma {:induction false} TracksAddressesExactly(q: Ask, cards: map<string, string>, ips: seq<VNicIP>)
    requires AddressNamesDistinct(ips) && AddressesFit(q, cards, ips)
    ensures TrackAddresses(q, cards, ips).Values
         == q.prior.addresses.Values + set i | 0 <= i < |ips| && AddressOwned(cards, ips[i]) :: ips[i].uid
  {
    if |ips| > 0 {
      var n := |ips| - 1;
      var before, o := ips[..n], ips[n];
      TracksAddressesExactly(q, cards, before);
      AddressNameIsPrior(q, cards, before, o.name);
      if AddressOwned(cards, o) { ValuesGrow(TrackAddresses(q, cards, before), o.name, o.uid); }
    }
  }

  /** What the Pod's own annotations name must be there. */
  predicate PodRefsFit(pod: Option<Pod>, cards: set<string>, addresses: set<string>) {
    match pod
    case None => true
    case Some(o) => (o.cardRef == "" || o.cardRef in cards) && (o.addressRef == "" || o.addressRef in addresses)
  }

  /** Nothing listed contradicts the attachment. */
  predicate Consistent(q: Ask, pods: seq<Pod>, vnics: seq<VNic>, ips: seq<VNicIP>) {
    var pod := ThePod(q, pods);
    var cards := TrackCards(q, pod, vnics);
    && PodsFit(q, pods) && CardsFit(q, pod, vnics) && AddressesFit(q, cards, ips)
    && PodRefsFit(pod, LiveCards(q, pod, vnics), LiveAddresses(cards, ips))
  }

  /** What is found without contradiction: the Pod, whether anything is owned, and what is remembered from now on. */
  predicate IsFinding(q: Ask, pods: seq<Pod>, vnics: seq<VNic>, ips: seq<VNicIP>, f: Finding) {
    var pod := ThePod(q, pods);
    && (f.present <==> pod.Some?) && (f.present ==> f.podUID == pod.value.uid && f.podName == pod.value.name)
    && f.tracked.cards == TrackCards(q, pod, vnics) && f.tracked.addresses == TrackAddresses(q, f.tracked.cards, ips)
    && (f.hasDependencies <==>
          (exists i :: 0 <= i < |vnics| && CardOwned(q, pod, vnics[i]))
          || (exists i :: 0 <= i < |ips| && AddressOwned(f.tracked.cards, ips[i])))
  }

  /** The whole observation: nothing on a contradiction, otherwise what was found and remembered. */
  method ObserveAttachment(q: Ask, pods: seq<Pod>, vnics: seq<VNic>, ips: seq<VNicIP>) returns (r: Option<Finding>)
    requires CardNamesDistinct(vnics) && AddressNamesDistinct(ips)
    ensures r.Some? <==> Consistent(q, pods, vnics, ips)
    ensures r.Some? ==> IsFinding(q, pods, vnics, ips, r.value)
  {
    var ok, pod := FindPod(q, pods);
    if !ok { return None; }
    var cardsOk, cards, liveCards := FindCards(q, pod, vnics);
    if !cardsOk { return None; }
    var addressesOk, addresses, liveAddresses := FindAddresses(q, cards, ips);
    if !addressesOk || !PodRefsFit(pod, liveCards, liveAddresses) { return None; }
    assert forall i :: 0 <= i < |vnics| && CardOwned(q, pod, vnics[i]) ==> vnics[i].name in liveCards;
    assert forall i :: 0 <= i < |ips| && AddressOwned(cards, ips[i]) ==> ips[i].name in liveAddresses;
    r := Some(Finding(pod.Some?, if pod.Some? then pod.value.name else "", if pod.Some? then pod.value.uid else "",
                      liveCards != {} || liveAddresses != {}, Tracked(cards, addresses)));
  }

  // -------- the two agree --------

  /** The listings by UID: Pods labelled with the attachment, and cards and addresses with their owners. */
  function ByUID(pods: seq<Pod>, vnics: seq<VNic>, ips: seq<VNicIP>): Cluster {
    Cluster(set i | 0 <= i < |pods| && pods[i].labelled :: pods[i].uid,
            set i | 0 <= i < |vnics| :: Card(vnics[i].uid, vnics[i].owner),
            set i | 0 <= i < |ips| :: Address(ips[i].uid, ips[i].owner))
  }

  function Remembered(t: Tracked): Relations { Relations(t.cards.Values, t.addresses.Values) }

  /** A UID keeps its name. */
  predicate NamesKept(q: Ask, vnics: seq<VNic>, ips: seq<VNicIP>) {
    && (forall n, i :: n in q.prior.cards && 0 <= i < |vnics| && q.prior.cards[n] == vnics[i].uid ==> vnics[i].name == n)
    && (forall n, i :: n in q.prior.addresses && 0 <= i < |ips| && q.prior.addresses[n] == ips[i].uid ==> ips[i].name == n)
  }

  /** The work a question was asked for. */
  predicate AsksFor(q: Ask, w: Work) {
    q.podUID == w.attachment.podUID && q.consumerPodUIDs == w.consumerPodUIDs && w.relations == Remembered(q.prior)
  }

  lemma PodsAgree(q: Ask, w: Work, pods: seq<Pod>, vnics: seq<VNic>, ips: seq<VNicIP>)
    requires AsksFor(q, w) && PodsFit(q, pods)
    ensures var seen, pod := ByUID(pods, vnics, ips).pods, ThePod(q, pods);
            seen == (if pod.Some? then {pod.value.uid} else {}) && Known(w) + seen == PodsInSight(q, pod)
  {
    var seen, pod := ByUID(pods, vnics, ips).pods, ThePod(q, pods);
    forall u | u in seen ensures pod.Some? && u == pod.value.uid {
      var i :| 0 <= i < |pods| && pods[i].labelled && pods[i].uid == u;
      assert IsCandidate(q, pods[i]);
      var j :| 0 <= j < |pods| && pods[j] == pod.value;
      if i < j || j < i { assert false; }
    }
    if pod.Some? {
      var j :| 0 <= j < |pods| && pods[j] == pod.value;
      assert PodFits(q, pods[j]);
      assert pods[j].uid in seen;
    }
  }

  lemma CardsAgree(q: Ask, w: Work, pods: seq<Pod>, vnics: seq<VNic>, ips: seq<VNicIP>)
    requires AsksFor(q, w) && PodsFit(q, pods) && CardsFit(q, ThePod(q, pods), vnics) && CardNamesDistinct(vnics)
    ensures CardsInSight(w, ByUID(pods, vnics, ips)) == TrackCards(q, ThePod(q, pods), vnics).Values
  {
    var pod, seen := ThePod(q, pods), ByUID(pods, vnics, ips);
    PodsAgree(q, w, pods, vnics, ips);
    TracksExactly(q, pod, vnics);
    forall i | 0 <= i < |vnics| ensures Card(vnics[i].uid, vnics[i].owner) in seen.cards {}
    assert (set c | c in OwnedCards(w, seen) :: c.uid)
        == set i | 0 <= i < |vnics| && CardOwned(q, pod, vnics[i]) :: vnics[i].uid by {
      forall i | 0 <= i < |vnics| && CardOwned(q, pod, vnics[i])
        ensures Card(vnics[i].uid, vnics[i].owner) in OwnedCards(w, seen) {}
    }
  }

  lemma RememberedCardsAreOwned(q: Ask, w: Work, pods: seq<Pod>, vnics: seq<VNic>, ips: seq<VNicIP>, c: Card)
    requires AsksFor(q, w) && PodsFit(q, pods) && CardsFit(q, ThePod(q, pods), vnics) && NamesKept(q, vnics, ips)
    requires c in ByUID(pods, vnics, ips).cards && c.uid in w.relations.cards
    ensures c in OwnedCards(w, ByUID(pods, vnics, ips))
  {
    PodsAgree(q, w, pods, vnics, ips);
    var i :| 0 <= i < |vnics| && c == Card(vnics[i].uid, vnics[i].owner);
    var n :| n in q.prior.cards && q.prior.cards[n] == c.uid;
    assert vnics[i].name == n;
    assert CardAttributed(q, ThePod(q, pods), vnics[i]);
  }

  lemma RememberedAddressesAreOwned(q: Ask, w: Work, pods: seq<Pod>, vnics: seq<VNic>, ips: seq<VNicIP>, x: Address)
    requires AsksFor(q, w) && Consistent(q, pods, vnics, ips) && CardNamesDistinct(vnics) && NamesKept(q, vnics, ips)
    requires x in ByUID(pods, vnics, ips).addresses && x.uid in w.relations.addresses
    ensures x in OwnedAddresses(w, ByUID(pods, vnics, ips))
  {
    CardsAgree(q, w, pods, vnics, ips);
    var i :| 0 <= i < |ips| && x == Address(ips[i].uid, ips[i].owner);
    var n :| n in q.prior.addresses && q.prior.addresses[n] == x.uid;
    assert ips[i].name == n;
    assert AddressAttributed(q, TrackCards(q, ThePod(q, pods), vnics), ips[i]);
  }

  lemma AddressesAgree(q: Ask, w: Work, pods: seq<Pod>, vnics: seq<VNic>, ips: seq<VNicIP>)
    requires AsksFor(q, w) && Consistent(q, pods, vnics, ips) && CardNamesDistinct(vnics) && AddressNamesDistinct(ips)
    ensures var seen, cards := ByUID(pods, vnics, ips), TrackCards(q, ThePod(q, pods), vnics);
            w.relations.addresses + (set x | x in OwnedAddresses(w, seen) :: x.uid) == TrackAddresses(q, cards, ips).Values
  {
    var seen, cards := ByUID(pods, vnics, ips), TrackCards(q, ThePod(q, pods), vnics);
    CardsAgree(q, w, pods, vnics, ips);
    TracksAddressesExactly(q, cards, ips);
    forall i | 0 <= i < |ips| ensures Address(ips[i].uid, ips[i].owner) in seen.addresses {}
    assert (set x | x in OwnedAddresses(w, seen) :: x.uid)
        == set i | 0 <= i < |ips| && AddressOwned(cards, ips[i]) :: ips[i].uid by {
      forall i | 0 <= i < |ips| && AddressOwned(cards, ips[i])
        ensures Address(ips[i].uid, ips[i].owner) in OwnedAddresses(w, seen) {}
    }
  }

  lemma OwnedMeansDependencies(q: Ask, w: Work, pods: seq<Pod>, vnics: seq<VNic>, ips: seq<VNicIP>, f: Finding)
    requires AsksFor(q, w) && Consistent(q, pods, vnics, ips) && CardNamesDistinct(vnics) && IsFinding(q, pods, vnics, ips, f)
    ensures var seen := ByUID(pods, vnics, ips);
            f.hasDependencies <==> OwnedCards(w, seen) != {} || OwnedAddresses(w, seen) != {}
  {
    var pod, seen := ThePod(q, pods), ByUID(pods, vnics, ips);
    PodsAgree(q, w, pods, vnics, ips);
    CardsAgree(q, w, pods, vnics, ips);
    forall i | 0 <= i < |vnics| && CardOwned(q, pod, vnics[i]) ensures Card(vnics[i].uid, vnics[i].owner) in OwnedCards(w, seen) {}
    forall i | 0 <= i < |ips| && AddressOwned(f.tracked.cards, ips[i])
      ensures Address(ips[i].uid, ips[i].owner) in OwnedAddresses(w, seen) {}
    if c :| c in OwnedCards(w, seen) {
      var i :| 0 <= i < |vnics| && c == Card(vnics[i].uid, vnics[i].owner);
      assert CardOwned(q, pod, vnics[i]);
    }
    if x :| x in OwnedAddresses(w, seen) {
      var i :| 0 <= i < |ips| && x == Address(ips[i].uid, ips[i].owner);
      assert AddressOwned(f.tracked.cards, ips[i]);
    }
  }

  /** What the observation as written finds is a report by UID: the protocol's provider is this one. */
  lemma FindingsAreReports(q: Ask, w: Work, pods: seq<Pod>, vnics: seq<VNic>, ips: seq<VNicIP>, f: Finding, o: Observed)
    requires AsksFor(q, w) && CardNamesDistinct(vnics) && AddressNamesDistinct(ips) && NamesKept(q, vnics, ips)
    requires Consistent(q, pods, vnics, ips) && IsFinding(q, pods, vnics, ips, f)
    requires o.present == f.present && o.podUID == f.podUID && o.relations == Remembered(f.tracked)
    requires f.hasDependencies ==> o.hasDependencies
    ensures Reports(w, ByUID(pods, vnics, ips), o)
  {
    var seen := ByUID(pods, vnics, ips);
    PodsAgree(q, w, pods, vnics, ips);
    CardsAgree(q, w, pods, vnics, ips);
    AddressesAgree(q, w, pods, vnics, ips);
    OwnedMeansDependencies(q, w, pods, vnics, ips, f);
    assert Unambiguous(w, seen) by {
      forall c | c in seen.cards && c.uid in w.relations.cards ensures c in OwnedCards(w, seen) {
        RememberedCardsAreOwned(q, w, pods, vnics, ips, c);
      }
      forall x | x in seen.addresses && x.uid in w.relations.addresses ensures x in OwnedAddresses(w, seen) {
        RememberedAddressesAreOwned(q, w, pods, vnics, ips, x);
      }
    }
    if ThePod(q, pods).Some? {
      var j :| 0 <= j < |pods| && pods[j] == ThePod(q, pods).value;
      assert PodFits(q, pods[j]);
    }
  }

  // -------- what is found, and what is refused --------

  /** The labelled Pod of consistent listings is found, and what it owns counts and is remembered. */
  lemma LabelledPodIsFound(q: Ask, pods: seq<Pod>, vnics: seq<VNic>, ips: seq<VNicIP>, f: Finding, i: nat)
    requires Consistent(q, pods, vnics, ips) && IsFinding(q, pods, vnics, ips, f) && i < |pods| && pods[i].labelled
    ensures f.present && f.podUID == pods[i].uid && f.podName == pods[i].name
    ensures forall j :: 0 <= j < |vnics| && vnics[j].owner == pods[i].uid ==> f.hasDependencies
  {
    assert IsCandidate(q, pods[i]);
    var j :| 0 <= j < |pods| && pods[j] == ThePod(q, pods).value;
    assert i == j;
    forall n | 0 <= n < |vnics| && vnics[n].owner == pods[i].uid ensures f.hasDependencies { assert CardOwned(q, ThePod(q, pods), vnics[n]); }
  }

  /** Cards of the recorded and of acknowledged Pods, and addresses of remembered cards, count without any Pod. */
  lemma OrphansCount(q: Ask, pods: seq<Pod>, vnics: seq<VNic>, ips: seq<VNicIP>, f: Finding)
    requires Consistent(q, pods, vnics, ips) && IsFinding(q, pods, vnics, ips, f) && CardNamesDistinct(vnics)
    ensures forall j :: 0 <= j < |vnics| && q.podUID != "" && vnics[j].owner == q.podUID ==> f.hasDependencies
    ensures forall j :: 0 <= j < |vnics| && vnics[j].owner in q.consumerPodUIDs ==> f.hasDependencies
    ensures forall j, n :: 0 <= j < |ips| && n in q.prior.cards && ips[j].owner == q.prior.cards[n] ==> f.hasDependencies
  {
    var pod := ThePod(q, pods);
    forall j | 0 <= j < |vnics| && ((q.podUID != "" && vnics[j].owner == q.podUID) || vnics[j].owner in q.consumerPodUIDs)
      ensures f.hasDependencies { assert CardOwned(q, pod, vnics[j]); }
    TracksExactly(q, pod, vnics);
    forall j, n | 0 <= j < |ips| && n in q.prior.cards && ips[j].owner == q.prior.cards[n] ensures f.hasDependencies {
      assert ips[j].owner in q.prior.cards.Values;
      assert AddressOwned(f.tracked.cards, ips[j]);
    }
  }

  /** A Pod that claims to be this attachment's by label, UID or name must be it in all respects, and alone. */
  lemma PodContradictions(q: Ask, pods: seq<Pod>, vnics: seq<VNic>, ips: seq<VNicIP>, i: nat, j: nat)
    requires i < |pods| && j < |pods|
    requires || (!pods[i].labelled && q.podUID != "" && pods[i].uid == q.podUID)
             || (!pods[i].labelled && pods[i].uid in q.consumerPodUIDs)
             || (!pods[i].labelled && q.podName != "" && pods[i].name == q.podName)
             || (pods[i].labelled && !pods[i].sound)
             || (pods[i].labelled && q.podUID != "" && pods[i].uid != q.podUID)
             || (i != j && pods[i].labelled && pods[j].labelled)
    ensures !Consistent(q, pods, vnics, ips)
  {
    assert IsCandidate(q, pods[i]);
    if pods[j].labelled { assert IsCandidate(q, pods[j]); }
  }

  /** A card remembered, annotated for the Pod, or owned by it, must be owned by it, sound, and the one remembered. */
  lemma CardContradictions(q: Ask, pods: seq<Pod>, vnics: seq<VNic>, ips: seq<VNicIP>, i: nat)
    requires i < |vnics| && PodsFit(q, pods)
    requires var pod, o := ThePod(q, pods), vnics[i];
             var owned := o.owner in q.consumerPodUIDs || (q.podUID != "" && o.owner == q.podUID) || (pod.Some? && o.owner == pod.value.uid);
             || (owned && !o.sound)
             || (o.name in q.prior.cards && (!owned || q.prior.cards[o.name] != o.uid))
             || (!owned && q.podName != "" && q.podName in o.annotated)
             || (!owned && pod.Some? && pod.value.name != "" && pod.value.name in o.annotated)
    ensures !Consistent(q, pods, vnics, ips)
  {
    assert CardAttributed(q, ThePod(q, pods), vnics[i]);
  }

  /** An address remembered, owned by a remembered card or naming one must be owned by that card, sound, and the one remembered. */
  lemma AddressContradictions(q: Ask, pods: seq<Pod>, ips: seq<VNicIP>, i: nat)
    requires i < |ips|
    requires var o, cards := ips[i], q.prior.cards;
             || (o.owner in cards.Values && !o.sound)
             || (o.name in q.prior.addresses && (o.owner !in cards.Values || q.prior.addresses[o.name] != o.uid))
             || (o.ref != "" && o.ref in cards && cards[o.ref] != o.owner)
             || (o.statusRef != "" && o.statusRef in cards && cards[o.statusRef] != o.owner)
             || (o.owner in cards.Values && ((o.ref != "" && o.ref !in cards) || (o.statusRef != "" && o.statusRef !in cards)))
    ensures !Consistent(q, pods, [], ips)
  {
    assert TrackCards(q, ThePod(q, pods), []) == q.prior.cards;
    assert AddressAttributed(q, q.prior.cards, ips[i]);
  }

  /** What the Pod's annotations name and is not there is a contradiction. */
  lemma DanglingReferences(q: Ask, pods: seq<Pod>, i: nat)
    requires i < |pods| && pods[i].labelled && (pods[i].cardRef != "" || pods[i].addressRef != "")
    ensures !Consistent(q, pods, [], [])
  {
    assert IsCandidate(q, pods[i]);
  }

  /** A foreign object is none of this attachment's business. */
  lemma ForeignObjectsAreIgnored(q: Ask, o: Pod, v: VNic, x: VNicIP)
    requires !o.labelled && o.uid !in q.consumerPodUIDs && o.uid != q.podUID && o.name != q.podName
    requires v.owner !in q.consumerPodUIDs && v.owner != q.podUID && v.name !in q.prior.cards && q.podName !in v.annotated
    requires x.owner !in q.prior.cards.Values && x.name !in q.prior.addresses && x.ref !in q.prior.cards && x.statusRef !in q.prior.cards
    ensures Consistent(q, [o], [v], [x])
    ensures forall f :: IsFinding(q, [o], [v], [x], f) ==> !f.present && !f.hasDependencies && f.tracked == q.prior
  {
    assert !IsCandidate(q, o);
    assert ThePod(q, [o]) == None by { assert [o][0] == o; }
    assert !CardAttributed(q, None, v) && !CardOwned(q, None, v);
    assert TrackCards(q, None, [v]) == q.prior.cards by { assert [v][..0] == []; }
    assert !AddressAttributed(q, q.prior.cards, x);
    assert TrackAddresses(q, q.prior.cards, [x]) == q.prior.addresses by { assert [x][..0] == []; }
    assert PodsFit(q, [o]) && CardsFit(q, None, [v]) && AddressesFit(q, q.prior.cards, [x]);
  }
}
