/**
 What a reader is shown of a load balancer: evidence that is missing, from the future or older
 than the freshness window hides the state it supported. The view is built on a copy.
 */
module Views {
  import opened Text

  /** The largest `time.Duration`; a difference of instants saturates there. */
  const MAX_DURATION: int := 0x7FFF_FFFF_FFFF_FFFF

  datatype Member = Member(id: string, state: string, observedAt: Option<int>, stale: bool)

  datatype LoadBalancer = LoadBalancer(observedAt: Option<int>, stale: bool, dataPlane: string,
                                       dataPlaneAt: Option<int>, backends: array<Member>)

  /** The same with the contents of the backend slice in its place. */
  datatype Picture = Picture(observedAt: Option<int>, stale: bool, dataPlane: string,
                             dataPlaneAt: Option<int>, backends: seq<Member>)

  function Contents(v: LoadBalancer): Picture
    reads v.backends
  {
    Picture(v.observedAt, v.stale, v.dataPlane, v.dataPlaneAt, v.backends[..])
  }

  function Elapsed(now: int, t: int): int { if now - t > MAX_DURATION then MAX_DURATION else now - t }

  predicate Stale(t: Option<int>, now: int, freshness: int) {
    t.None? || t.value > now || Elapsed(now, t.value) > freshness
  }

  /** The evidence lies in the window ending now; the largest duration is a window without a beginning. */
  predicate Supported(t: Option<int>, now: int, freshness: int) {
    t.Some? && t.value <= now && (now - freshness <= t.value || freshness == MAX_DURATION)
  }

  function SeenMember(m: Member, now: int, freshness: int): Member {
    var stale := Stale(m.observedAt, now, freshness);
    m.(stale := stale, state := if stale then "unknown" else m.state)
  }

  function SeenMembers(ms: seq<Member>, now: int, freshness: int): seq<Member> {
    seq(|ms|, i requires 0 <= i < |ms| => SeenMember(ms[i], now, freshness))
  }

  function Seen(p: Picture, now: int, freshness: int): Picture {
    var hidden := Stale(p.dataPlaneAt, now, freshness);
    Picture(p.observedAt, Stale(p.observedAt, now, freshness), if hidden then "unknown" else p.dataPlane,
            if hidden then None else p.dataPlaneAt, SeenMembers(p.backends, now, freshness))
  }

  /** The view as written: clone the slice, then overwrite the clone element by element. */
  method Observation(v: LoadBalancer, now: int, freshness: int) returns (w: LoadBalancer)
    ensures fresh(w.backends)
    ensures Contents(w) == Seen(Contents(v), now, freshness)
  {
    w := v.(stale := Stale(v.observedAt, now, freshness));
    if Stale(w.dataPlaneAt, now, freshness) {
      w := w.(dataPlane := "unknown", dataPlaneAt := None);
    }
    var clone := new Member[v.backends.Length](i requires 0 <= i < v.backends.Length reads v.backends => v.backends[i]);
    w := w.(backends := clone);
    for j := 0 to clone.Length
      invariant forall i :: 0 <= i < j ==> clone[i] == SeenMember(v.backends[i], now, freshness)
      invariant forall i :: j <= i < clone.Length ==> clone[i] == v.backends[i]
    {
      clone[j] := clone[j].(stale := Stale(clone[j].observedAt, now, freshness));
      if clone[j].stale {
        clone[j] := clone[j].(state := "unknown");
      }
    }
    assert clone[..] == SeenMembers(v.backends[..], now, freshness);
  }

  lemma StaleExactly(t: Option<int>, now: int, freshness: int)
    requires 0 < freshness <= MAX_DURATION
    ensures Stale(t, now, freshness) <==> !Supported(t, now, freshness)
  {
  }

  /** The window has a beginning exactly below the largest freshness: there, evidence of any age supports. */
  lemma WindowsBegin(now: int, freshness: int)
    requires 0 < freshness <= MAX_DURATION
    ensures (forall t :: t < now - freshness ==> Stale(Some(t), now, freshness)) <==> freshness < MAX_DURATION
  {
    if freshness == MAX_DURATION { assert !Stale(Some(now - MAX_DURATION - 1), now, freshness); }
  }

  /** Such a state is shown although its evidence is older than the window. */
  lemma AncientStateShows(p: Picture, now: int)
    requires p.dataPlaneAt == Some(now - MAX_DURATION - 1)
    ensures Seen(p, now, MAX_DURATION).dataPlane == p.dataPlane
  {
  }

  /** Nothing but "unknown" is shown without supporting evidence, and supported states are shown as stored. */
  lemma OnlySupportedStatesShow(p: Picture, now: int, freshness: int)
    requires 0 < freshness <= MAX_DURATION
    ensures var q := Seen(p, now, freshness);
            && q.stale == !Supported(p.observedAt, now, freshness)
            && q.dataPlane == (if Supported(p.dataPlaneAt, now, freshness) then p.dataPlane else "unknown")
            && (q.dataPlaneAt.Some? ==> Supported(q.dataPlaneAt, now, freshness) && q.dataPlaneAt == p.dataPlaneAt)
            && |q.backends| == |p.backends|
            && forall i :: 0 <= i < |p.backends| ==>
                 && q.backends[i].stale == !Supported(p.backends[i].observedAt, now, freshness)
                 && q.backends[i].state == (if q.backends[i].stale then "unknown" else p.backends[i].state)
                 && q.backends[i].(stale := p.backends[i].stale, state := p.backends[i].state) == p.backends[i]
  {
    StaleExactly(p.observedAt, now, freshness);
    StaleExactly(p.dataPlaneAt, now, freshness);
    forall i | 0 <= i < |p.backends| ensures Stale(p.backends[i].observedAt, now, freshness) <==>
                                            !Supported(p.backends[i].observedAt, now, freshness) {
      StaleExactly(p.backends[i].observedAt, now, freshness);
    }
  }

  /** Viewing a view at the same instant changes nothing. */
  lemma SeenTwice(p: Picture, now: int, freshness: int)
    ensures Seen(Seen(p, now, freshness), now, freshness) == Seen(p, now, freshness)
  {
    var q := Seen(p, now, freshness);
    var again := SeenMembers(q.backends, now, freshness);
    forall i | 0 <= i < |q.backends| ensures again[i] == q.backends[i] {
      assert q.backends[i] == SeenMember(p.backends[i], now, freshness);
    }
    assert again == q.backends;
  }
}
