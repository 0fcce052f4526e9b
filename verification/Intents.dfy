/**
 Normalisation of a load balancer request into its intent, as written and as specified,
 and why equivalent requests yield the same intent.
 */
module Intents {
  import opened Text
  import opened LoadBalancers
  import Uuid

  /** The part of a load balancer intent that normalisation fills in through its pointer. */
  class Intent {
    var name: string
    var description: string
    var health: Health
    var backends: seq<Backend>
    const idempotencyKey: string

    constructor (idempotencyKey: string)
      ensures this.idempotencyKey == idempotencyKey && backends == []
    {
      this.idempotencyKey := idempotencyKey;
      name, description, health, backends := "", "", Health(0, 0, 0, 0, 0), [];
    }
  }

  /** The shared check of name, description and idempotency key. */
  type NameCheck = (string, string, string) -> Option<string>

  predicate Acceptable(check: NameCheck, key: string, r: Mutable, creating: bool) {
    && check(r.name, r.description, key).Some? && HealthOk(r.health)
    && BackendsOk(r.backends, Filled(r.health).port, creating)
  }

  /** The checks on one backend in the order they are made, with the two maps of what was seen. */
  method CheckBackend(b: BackendInput, port: nat, creating: bool, ids: set<string>, endpoints: set<string>)
    returns (failure: Option<Failure>)
    ensures failure.None? <==>
              BackendOk(b, port, creating) && (b.id == "" || b.id !in ids) && EndpointKey(b) !in endpoints
    ensures failure == Some(ResourceNotFound) <==> !ValidSubnetID(b.subnetID)
  {
    if !ValidSubnetID(b.subnetID) { return Some(ResourceNotFound); }
    if !CanonicalPrivateV4(b.address) || b.port < 1 || b.port > 65535 { return Some(InvalidArgument); }
    if b.port != port { return Some(InvalidArgument); }
    if b.id != "" {
      var id := Uuid.Parse(b.id);
      if creating || id.None? || Uuid.IsNil(id.value) || Uuid.Print(id.value) != b.id || b.id in ids {
        return Some(InvalidArgument);
      }
    }
    if EndpointKey(b) in endpoints { return Some(InvalidArgument); }
    if Default(b.weight, 1) > 1000000 { return Some(InvalidArgument); }
    return None;
  }

  function SeenIDs(xs: seq<BackendInput>): set<string> { set i | 0 <= i < |xs| && xs[i].id != "" :: xs[i].id }

  function SeenEndpoints(xs: seq<BackendInput>): set<string> { set i | 0 <= i < |xs| :: EndpointKey(xs[i]) }

  /** One more backend clashes with none before it exactly when the two maps do not know it. */
  lemma MapsDetectClashes(xs: seq<BackendInput>, b: BackendInput, port: nat, creating: bool)
    requires AllOk(xs, port, creating) && BackendOk(b, port, creating) && NoClash(xs)
    ensures NoClash(xs + [b]) <==> (b.id == "" || b.id !in SeenIDs(xs)) && EndpointKey(b) !in SeenEndpoints(xs)
  {
    var all := xs + [b];
    forall i | 0 <= i < |xs|
      ensures Clash(xs[i], b) <==> (b.id != "" && xs[i].id == b.id) || EndpointKey(xs[i]) == EndpointKey(b)
    {
      assert BackendOk(xs[i], port, creating);
      EndpointKeyInjective(xs[i], b);
    }
    if NoClash(all) {
      forall i | 0 <= i < |xs| ensures !Clash(xs[i], b) { assert all[i] == xs[i] && all[|xs|] == b; }
    }
  }

  lemma SeenGrows(xs: seq<BackendInput>, b: BackendInput)
    ensures SeenIDs(xs + [b]) == SeenIDs(xs) + if b.id == "" then {} else {b.id}
    ensures SeenEndpoints(xs + [b]) == SeenEndpoints(xs) + {EndpointKey(b)}
  {
    var all := xs + [b];
    assert all[|xs|] == b && forall i :: 0 <= i < |xs| ==> all[i] == xs[i];
  }

  predicate Sound(xs: seq<BackendInput>, port: nat, creating: bool) { AllOk(xs, port, creating) && NoClash(xs) }

  /** Some backend names no possible subnet and everything before it is in order. */
  ghost predicate SubnetFailsFirst(xs: seq<BackendInput>, port: nat, creating: bool) {
    exists n :: 0 <= n < |xs| && Sound(xs[..n], port, creating) && !ValidSubnetID(xs[n].subnetID)
  }

  lemma SoundPrefix(xs: seq<BackendInput>, m: nat, n: nat, port: nat, creating: bool)
    requires n <= m <= |xs| && Sound(xs[..m], port, creating)
    ensures Sound(xs[..n], port, creating)
    ensures forall i :: 0 <= i < m ==> ValidSubnetID(xs[i].subnetID)
  {
    forall i | 0 <= i < m ensures BackendOk(xs[i], port, creating) { assert xs[..m][i] == xs[i]; }
    assert xs[..n] == xs[..m][..n];
  }

  lemma FirstFailureDecides(xs: seq<BackendInput>, n: nat, port: nat, creating: bool)
    requires n < |xs| && Sound(xs[..n], port, creating) && !Sound(xs[..n + 1], port, creating)
    ensures !Sound(xs, port, creating)
    ensures SubnetFailsFirst(xs, port, creating) <==> !ValidSubnetID(xs[n].subnetID)
  {
    assert xs[..|xs|] == xs;
    forall m | n < m <= |xs| ensures !Sound(xs[..m], port, creating) {
      if Sound(xs[..m], port, creating) { SoundPrefix(xs, m, n + 1, port, creating); }
    }
    SoundPrefix(xs, n, n, port, creating);
  }

  /** The loop over the backends: reads the request, appends to the intent. */
  method CollectBackends(i: Intent, xs: seq<BackendInput>, port: nat, creating: bool) returns (failure: Option<Failure>)
    modifies i`backends
    ensures failure.None? <==> Sound(xs, port, creating)
    ensures failure == Some(ResourceNotFound) <==> SubnetFailsFirst(xs, port, creating)
    ensures failure.None? ==> i.backends == old(i.backends) + ResolveAll(xs)
  {
    var ids: set<string>, endpoints: set<string> := {}, {};
    for n := 0 to |xs|
      invariant Sound(xs[..n], port, creating)
      invariant ids == SeenIDs(xs[..n]) && endpoints == SeenEndpoints(xs[..n])
      invariant i.backends == old(i.backends) + ResolveAll(xs[..n])
    {
      var b := xs[n];
      assert xs[..n + 1] == xs[..n] + [b];
      failure := CheckBackend(b, port, creating, ids, endpoints);
      if BackendOk(b, port, creating) { MapsDetectClashes(xs[..n], b, port, creating); }
      if failure.Some? {
        FirstFailureDecides(xs, n, port, creating);
        return;
      }
      SeenGrows(xs[..n], b);
      if b.id != "" { ids := ids + {b.id}; }
      endpoints := endpoints + {EndpointKey(b)};
      assert ResolveAll(xs[..n + 1]) == ResolveAll(xs[..n]) + [Resolve(b)];
      i.backends := i.backends + [Backend(b.id, b.subnetID, b.address, b.port, Default(b.weight, 1))];
    }
    assert xs[..|xs|] == xs;
    failure := None;
  }

  /** Normalisation as written: fields are filled in one after another, and the backends sorted last. */
  method NormalizeMutable(i: Intent, check: NameCheck, r: Mutable, creating: bool) returns (failure: Option<Failure>)
    modifies i
    ensures failure.None? <==> Acceptable(check, i.idempotencyKey, r, creating)
    ensures failure == Some(ResourceNotFound) <==>
              && check(r.name, r.description, i.idempotencyKey).Some? && HealthOk(r.health)
              && SubnetFailsFirst(r.backends, Filled(r.health).port, creating)
    ensures failure.None? ==>
              && check(r.name, r.description, i.idempotencyKey) == Some(i.name) && i.description == r.description
              && i.health == Filled(r.health) && IsSorting(i.backends, old(i.backends) + ResolveAll(r.backends))
    ensures failure.None? && old(i.backends) == [] ==>
              Stores(check, i.idempotencyKey, r, creating, Stored(i.name, i.description, i.health, i.backends))
  {
    var name := check(r.name, r.description, i.idempotencyKey);
    if name.None? { return Some(InvalidArgument); }
    i.name, i.description := name.value, r.description;
    var h := r.health;
    if h.protocol != "" && h.protocol != "TCP" { return Some(InvalidArgument); }
    if h.port.None? || h.port.value == 0 || h.port.value > 65535 { return Some(InvalidArgument); }
    i.health := Health(Default(h.interval, 5), Default(h.timeout, 3), Default(h.unhealthy, 3), Default(h.healthy, 1), h.port.value);
    if i.health.timeout == 0 || i.health.interval <= i.health.timeout || i.health.unhealthy == 0 || i.health.healthy == 0 {
      return Some(InvalidArgument);
    }
    if |r.backends| == 0 { return Some(InvalidArgument); }
    failure := CollectBackends(i, r.backends, i.health.port, creating);
    if failure.Some? { return; }
    i.backends := SortFunc(i.backends);
  }

  // -------- order does not matter --------

  lemma TwiceMeansTwo(xs: seq<BackendInput>, i: nat, j: nat)
    requires i < j < |xs| && xs[i] == xs[j]
    ensures multiset(xs)[xs[i]] >= 2
  {
    var x := xs[i];
    assert xs == xs[..j] + [xs[j]] + xs[j + 1..];
    assert xs[..j][i] == x;
    assert x in multiset(xs[..j]);
  }

  lemma TwoMeansTwice(xs: seq<BackendInput>, x: BackendInput)
    requires multiset(xs)[x] >= 2
    ensures exists i, j :: 0 <= i < j < |xs| && xs[i] == x && xs[j] == x
  {
    assert x in multiset(xs);
    var i :| 0 <= i < |xs| && xs[i] == x;
    assert xs == xs[..i] + [xs[i]] + xs[i + 1..];
    if x in multiset(xs[..i]) {
      var j :| 0 <= j < i && xs[..i][j] == x;
      assert xs[j] == x;
    } else {
      assert x in multiset(xs[i + 1..]);
      var j :| 0 <= j < |xs| - i - 1 && xs[i + 1..][j] == x;
      assert xs[i + 1 + j] == x;
    }
  }

  /** Freedom from clashes, said of the collection instead of the list. */
  ghost predicate ClashFree(m: multiset<BackendInput>) {
    && (forall x :: x in m ==> m[x] == 1)
    && (forall x, y :: x in m && y in m && x != y ==> !Clash(x, y))
  }

  lemma NoClashIsOrderFree(xs: seq<BackendInput>)
    ensures NoClash(xs) <==> ClashFree(multiset(xs))
  {
    if NoClash(xs) {
      forall x | x in multiset(xs) ensures multiset(xs)[x] == 1 {
        if multiset(xs)[x] >= 2 {
          TwoMeansTwice(xs, x);
          assert false;
        }
      }
      forall x, y | x in multiset(xs) && y in multiset(xs) && x != y ensures !Clash(x, y) {
        var i :| 0 <= i < |xs| && xs[i] == x;
        var j :| 0 <= j < |xs| && xs[j] == y;
        if j < i { assert !Clash(y, x); }
      }
    }
    if ClashFree(multiset(xs)) {
      forall i, j | 0 <= i < j < |xs| ensures !Clash(xs[i], xs[j]) {
        assert xs[i] in multiset(xs) && xs[j] in multiset(xs);
        if xs[i] == xs[j] {
          TwiceMeansTwo(xs, i, j);
          assert false;
        }
      }
    }
  }

  lemma BackendsOkIsOrderFree(xs: seq<BackendInput>, ys: seq<BackendInput>, port: nat, creating: bool)
    requires multiset(xs) == multiset(ys)
    ensures BackendsOk(xs, port, creating) <==> BackendsOk(ys, port, creating)
  {
    NoClashIsOrderFree(xs);
    NoClashIsOrderFree(ys);
    if AllOk(xs, port, creating) { SameElements(xs, ys, port, creating); }
    if AllOk(ys, port, creating) { SameElements(ys, xs, port, creating); }
    assert |xs| == |multiset(xs)| && |ys| == |multiset(ys)|;
  }

  lemma SameElements(xs: seq<BackendInput>, ys: seq<BackendInput>, port: nat, creating: bool)
    requires multiset(xs) == multiset(ys) && AllOk(xs, port, creating)
    ensures AllOk(ys, port, creating)
  {
    forall j | 0 <= j < |ys| ensures BackendOk(ys[j], port, creating) {
      assert ys[j] in multiset(ys);
      assert ys[j] in multiset(xs);
    }
  }

  /** Equal collections stay equal when the same element leaves both. */
  lemma WithoutOne<T>(xs: seq<T>, ys: seq<T>, j: nat)
    requires multiset(xs) == multiset(ys) && |xs| > 0 && j < |ys| && ys[j] == xs[0]
    ensures multiset(xs[1..]) == multiset(ys[..j] + ys[j + 1..])
  {
    assert xs == [xs[0]] + xs[1..] && ys == ys[..j] + [xs[0]] + ys[j + 1..];
    assert multiset(xs) == multiset{xs[0]} + multiset(xs[1..]);
    assert multiset(ys) == multiset{xs[0]} + multiset(ys[..j] + ys[j + 1..]);
    forall x ensures multiset(xs[1..])[x] == multiset(ys[..j] + ys[j + 1..])[x] {
      assert multiset(xs)[x] == multiset(ys)[x];
    }
  }

  lemma SameLength<T>(xs: seq<T>, ys: seq<T>)
    requires multiset(xs) == multiset(ys)
    ensures |xs| == |ys|
    ensures xs != [] ==> xs[0] in ys && ys[0] in xs
  {
    assert |xs| == |multiset(xs)| && |ys| == |multiset(ys)|;
    if xs != [] { assert xs[0] in multiset(ys) && ys[0] in multiset(xs); }
  }

  /** Elements that each come before the other are the same. */
  predicate NoTies<T(==)>(compare: (T, T) -> int, r: seq<T>) {
    forall x, y :: x in r && y in r && compare(x, y) <= 0 && compare(y, x) <= 0 ==> x == y
  }

  predicate Ordered<T>(compare: (T, T) -> int, r: seq<T>) {
    forall i, j :: 0 <= i < j < |r| ==> compare(r[i], r[j]) <= 0
  }

  lemma HeadsAgree<T>(compare: (T, T) -> int, r: seq<T>, s: seq<T>)
    requires Ordered(compare, r) && Ordered(compare, s) && NoTies(compare, r)
    requires |r| > 0 && |s| > 0 && r[0] in s && s[0] in r
    ensures r[0] == s[0]
  {
    var i :| 0 <= i < |s| && s[i] == r[0];
    var j :| 0 <= j < |r| && r[j] == s[0];
  }

  lemma TailsAgree<T>(r: seq<T>, s: seq<T>)
    requires multiset(r) == multiset(s) && |r| > 0 && |s| > 0 && r[0] == s[0]
    ensures multiset(r[1..]) == multiset(s[1..])
  {
    WithoutOne(r, s, 0);
    assert s[..0] + s[1..] == s[1..];
  }

  lemma TailIsOrdered<T>(compare: (T, T) -> int, r: seq<T>)
    requires Ordered(compare, r) && NoTies(compare, r) && |r| > 0
    ensures Ordered(compare, r[1..]) && NoTies(compare, r[1..])
  {
  }

  lemma SameParts<T>(r: seq<T>, s: seq<T>)
    requires |r| > 0 && |s| > 0 && r[0] == s[0] && r[1..] == s[1..]
    ensures r == s
  {
    assert r == [r[0]] + r[1..] && s == [s[0]] + s[1..];
  }

  /** Sortings of collections without ties are unique, whatever the sort does with equals. */
  lemma {:induction false} SortingIsUnique<T>(compare: (T, T) -> int, r: seq<T>, s: seq<T>)
    requires Ordered(compare, r) && NoTies(compare, r) && Ordered(compare, s) && NoTies(compare, s)
    requires multiset(r) == multiset(s)
    ensures r == s
  {
    assert |r| == |s| && (r != [] ==> r[0] == s[0]) by {
      SameLength(r, s);
      if r != [] { HeadsAgree(compare, r, s); }
    }
    if r != [] {
      assert multiset(r[1..]) == multiset(s[1..]) by { TailsAgree(r, s); }
      TailIsOrdered(compare, r);
      TailIsOrdered(compare, s);
      SortingIsUnique(compare, r[1..], s[1..]);
      SameParts(r, s);
    }
  }

  lemma ResolvedHasNoTies(xs: seq<BackendInput>, r: seq<Backend>)
    requires NoClash(xs) && multiset(r) == multiset(ResolveAll(xs))
    ensures NoTies(Compare, r)
  {
    var all := ResolveAll(xs);
    forall x, y | x in r && y in r && Compare(x, y) <= 0 && Compare(y, x) <= 0 ensures x == y {
      assert x in multiset(all) && y in multiset(all);
      var i :| 0 <= i < |all| && all[i] == x;
      var j :| 0 <= j < |all| && all[j] == y;
      assert x == Resolve(xs[i]) && y == Resolve(xs[j]);
      CompareIsTotalOrder(x, y, y);
      assert Clash(xs[i], xs[j]) && Clash(xs[j], xs[i]);
    }
  }

  lemma MapSplits<T, U>(f: T -> U, xs: seq<T>, j: nat)
    requires j < |xs|
    ensures multiset(Map(f, xs)) == multiset{f(xs[j])} + multiset(Map(f, xs[..j] + xs[j + 1..]))
  {
    var left, right := Map(f, xs[..j]), Map(f, xs[j + 1..]);
    assert Map(f, xs) == left + [f(xs[j])] + right;
    assert Map(f, xs[..j] + xs[j + 1..]) == left + right;
  }

  lemma {:induction false} MapKeepsPermutation<T, U>(f: T -> U, xs: seq<T>, ys: seq<T>)
    requires multiset(xs) == multiset(ys)
    ensures multiset(Map(f, xs)) == multiset(Map(f, ys))
  {
    SameLength(xs, ys);
    if |xs| > 0 {
      var j :| 0 <= j < |ys| && ys[j] == xs[0];
      WithoutOne(xs, ys, j);
      MapKeepsPermutation(f, xs[1..], ys[..j] + ys[j + 1..]);
      MapSplits(f, ys, j);
      MapSplits(f, xs, 0);
      assert xs[..0] + xs[1..] == xs[1..];
    } else {
      assert xs == ys;
    }
  }

  /** Reordering the backends of a request changes neither whether it is accepted nor the intent. */
  lemma OrderDoesNotMatter(xs: seq<BackendInput>, ys: seq<BackendInput>, port: nat, creating: bool,
                           r: seq<Backend>, s: seq<Backend>)
    requires multiset(xs) == multiset(ys)
    requires IsSorting(r, ResolveAll(xs)) && IsSorting(s, ResolveAll(ys))
    ensures BackendsOk(xs, port, creating) <==> BackendsOk(ys, port, creating)
    ensures BackendsOk(xs, port, creating) ==> r == s
  {
    BackendsOkIsOrderFree(xs, ys, port, creating);
    if BackendsOk(xs, port, creating) {
      MapKeepsPermutation(Resolve, xs, ys);
      ResolvedHasNoTies(xs, r);
      ResolvedHasNoTies(xs, s);
      SortingIsUnique(Compare, r, s);
    }
  }

  // -------- neither do defaults --------

  /** A stored backend as a request would spell it, nothing left to default. */
  function Spell(b: Backend): BackendInput { BackendInput(b.id, b.subnetID, b.address, b.port, Some(b.weight)) }

  lemma ResolveSpelled(rs: seq<Backend>)
    ensures ResolveAll(Map(Spell, rs)) == rs
  {
    var ys := ResolveAll(Map(Spell, rs));
    forall i | 0 <= i < |rs| ensures ys[i] == rs[i] { assert ys[i] == Resolve(Map(Spell, rs)[i]); }
  }

  lemma SpellingOutKeepsVerdict(xs: seq<BackendInput>, port: nat, creating: bool)
    ensures BackendsOk(xs, port, creating) <==> BackendsOk(Map(Spell, ResolveAll(xs)), port, creating)
  {
    var ys := Map(Spell, ResolveAll(xs));
    assert |ys| == |xs|;
    forall i | 0 <= i < |xs| ensures BackendOk(xs[i], port, creating) <==> BackendOk(ys[i], port, creating) {
      assert ys[i] == Spell(Resolve(xs[i]));
    }
    forall i, j | 0 <= i < j < |xs| ensures Clash(xs[i], xs[j]) <==> Clash(ys[i], ys[j]) {
      assert ys[i] == Spell(Resolve(xs[i])) && ys[j] == Spell(Resolve(xs[j]));
    }
  }

  /**
   The intent identifies exactly the requests that mean the same: whatever sort is used, two
   requests are accepted together and stored identically if and only if they name the same
   backends up to order and up to leaving defaults out.
   */
  lemma IntentIsCanonical(xs: seq<BackendInput>, ys: seq<BackendInput>, port: nat, creating: bool,
                          r: seq<Backend>, s: seq<Backend>)
    requires BackendsOk(xs, port, creating)
    requires IsSorting(r, ResolveAll(xs)) && IsSorting(s, ResolveAll(ys))
    ensures BackendsOk(ys, port, creating) && r == s <==> multiset(ResolveAll(xs)) == multiset(ResolveAll(ys))
  {
    var us, vs := ResolveAll(xs), ResolveAll(ys);
    SpellingOutKeepsVerdict(xs, port, creating);
    SpellingOutKeepsVerdict(ys, port, creating);
    if multiset(us) == multiset(vs) {
      MapKeepsPermutation(Spell, us, vs);
      ResolveSpelled(us);
      ResolveSpelled(vs);
      OrderDoesNotMatter(Map(Spell, us), Map(Spell, vs), port, creating, r, s);
    }
  }

  // -------- whole requests --------

  /** What normalisation stores. */
  datatype Stored = Stored(name: string, description: string, health: Health, backends: seq<Backend>)

  /** A request that is accepted, and one of the results normalisation may leave for it. */
  predicate Stores(check: NameCheck, key: string, r: Mutable, creating: bool, x: Stored) {
    && Acceptable(check, key, r, creating)
    && check(r.name, r.description, key) == Some(x.name) && x.description == r.description
    && x.health == Filled(r.health) && IsSorting(x.backends, ResolveAll(r.backends))
  }

  /** The requests say the same: name as normalised, description, health check and backends, up to order,
      omitted defaults and the one protocol there is. */
  predicate SameMeaning(check: NameCheck, key: string, r: Mutable, q: Mutable) {
    && check(r.name, r.description, key) == check(q.name, q.description, key) && r.description == q.description
    && q.health.protocol in {"", "TCP"} && Filled(r.health) == Filled(q.health)
    && multiset(ResolveAll(r.backends)) == multiset(ResolveAll(q.backends))
  }

  /** Two requests are accepted together and stored identically if and only if they say the same. */
  lemma RequestIsCanonical(check: NameCheck, key: string, r: Mutable, q: Mutable, creating: bool, x: Stored, y: Stored)
    requires Stores(check, key, r, creating, x)
    requires y.description == q.description && y.health == Filled(q.health) && IsSorting(y.backends, ResolveAll(q.backends))
    requires check(q.name, q.description, key).Some? ==> y.name == check(q.name, q.description, key).value
    ensures Stores(check, key, q, creating, y) && x == y <==> SameMeaning(check, key, r, q)
  {
    IntentIsCanonical(r.backends, q.backends, Filled(r.health).port, creating, x.backends, y.backends);
  }

  // -------- what the defaults are, and what is acceptable --------

  /** The request with every omitted value written out: weight 1, interval 5, timeout 3, thresholds 3 and 1. */
  function WithWeight(b: BackendInput): BackendInput { if b.weight == None then b.(weight := Some(1)) else b }

  function WithHealth(h: HealthInput): HealthInput {
    h.(interval := if h.interval == None then Some(5) else h.interval, timeout := if h.timeout == None then Some(3) else h.timeout,
       unhealthy := if h.unhealthy == None then Some(3) else h.unhealthy, healthy := if h.healthy == None then Some(1) else h.healthy)
  }

  function WrittenOut(r: Mutable): Mutable { Mutable(r.name, r.description, Map(WithWeight, r.backends), WithHealth(r.health)) }

  lemma WeightsWrittenOut(bs: seq<BackendInput>)
    ensures Map(WithWeight, bs) == Map(Spell, ResolveAll(bs)) && ResolveAll(Map(WithWeight, bs)) == ResolveAll(bs)
  {
    var ys, zs := Map(WithWeight, bs), Map(Spell, ResolveAll(bs));
    forall i | 0 <= i < |bs| ensures ys[i] == zs[i] { assert zs[i] == Spell(Resolve(bs[i])); }
    assert ys == zs;
    ResolveSpelled(ResolveAll(bs));
  }

  /** Writing the defaults out changes neither whether a request is accepted nor what is stored. */
  lemma DefaultsAreBlind(check: NameCheck, key: string, r: Mutable, creating: bool, x: Stored)
    ensures Stores(check, key, r, creating, x) <==> Stores(check, key, WrittenOut(r), creating, x)
  {
    WeightsWrittenOut(r.backends);
    assert Filled(WithHealth(r.health)) == Filled(r.health);
    SpellingOutKeepsVerdict(r.backends, Filled(r.health).port, creating);
  }

  /** Of an accepted request every backend is stored, with its own weight or weight 1, and the health check with its own
      values or the defaults. */
  lemma StoredExactly(check: NameCheck, key: string, r: Mutable, creating: bool, x: Stored, i: nat)
    requires Stores(check, key, r, creating, x) && i < |r.backends|
    ensures var b := r.backends[i];
            Backend(b.id, b.subnetID, b.address, b.port, if b.weight.Some? then b.weight.value else 1) in x.backends
    ensures |x.backends| == |r.backends|
    ensures var h := r.health;
            x.health == Health(if h.interval.Some? then h.interval.value else 5, if h.timeout.Some? then h.timeout.value else 3,
                               if h.unhealthy.Some? then h.unhealthy.value else 3, if h.healthy.Some? then h.healthy.value else 1,
                               h.port.value)
  {
    BackendIsStored(x.backends, r.backends, i);
  }

  lemma BackendIsStored(rs: seq<Backend>, bs: seq<BackendInput>, i: nat)
    requires multiset(rs) == multiset(ResolveAll(bs)) && i < |bs|
    ensures |rs| == |bs|
    ensures Backend(bs[i].id, bs[i].subnetID, bs[i].address, bs[i].port, if bs[i].weight.Some? then bs[i].weight.value else 1) in rs
  {
    SameLength(rs, ResolveAll(bs));
    var b := ResolveAll(bs)[i];
    assert b in multiset(rs);
    assert b == Resolve(bs[i]);
  }

  /** The health check must be TCP, on a valid port, with a positive timeout below the interval and positive thresholds. */
  lemma HealthExactly(h: HealthInput)
    requires h.interval.Some? && h.timeout.Some? && h.unhealthy.Some? && h.healthy.Some?
    ensures HealthOk(h) <==>
              && (h.protocol == "" || h.protocol == "TCP") && h.port.Some? && 0 < h.port.value < 65536
              && 0 < h.timeout.value < h.interval.value && h.unhealthy.value > 0 && h.healthy.value > 0
  {
  }

  /** A backend must name a subnet and a private address, use the health check port, weigh at most a million, and carry
      an identity only on update and only in printed form. */
  lemma BackendExactly(b: BackendInput, port: nat, creating: bool)
    ensures BackendOk(b, port, creating) <==>
              && |b.subnetID| == 39 && b.subnetID[..7] == "subnet_"
              && (forall i :: 7 <= i < 39 ==> '0' <= b.subnetID[i] <= '9' || 'a' <= b.subnetID[i] <= 'f')
              && CanonicalPrivateV4(b.address) && 0 < b.port < 65536 && b.port == port
              && (b.id != "" ==> !creating && Uuid.IsCanonical(b.id))
              && (b.weight.Some? ==> b.weight.value <= 1_000_000)
  {
  }

  /** Two backends exclude one another exactly when they share an identity, or subnet, address and port. */
  lemma ClashesExactly(x: BackendInput, y: BackendInput, port: nat, creating: bool)
    requires BackendOk(x, port, creating) && BackendOk(y, port, creating)
    ensures BackendsOk([x, y], port, creating) <==>
              (x.id == "" || x.id != y.id) && (x.subnetID != y.subnetID || x.address != y.address || x.port != y.port)
    ensures !BackendsOk([], port, creating) && BackendsOk([x], port, creating)
  {
    var xs := [x, y];
    assert xs[0] == x && xs[1] == y;
  }

  function SpellHealth(h: Health): HealthInput {
    HealthInput("TCP", Some(h.interval), Some(h.timeout), Some(h.unhealthy), Some(h.healthy), Some(h.port))
  }

  /** What a client would send to ask again for a stored intent. */
  function Resend(name: string, description: string, health: Health, backends: seq<Backend>): Mutable {
    Mutable(name, description, Map(Spell, backends), SpellHealth(health))
  }

  /** Sending back what is stored is accepted and stores the same again, if the stored name is a normal one. */
  lemma NormalisedIsFixed(check: NameCheck, key: string, r: Mutable, creating: bool, name: string,
                          stored: seq<Backend>, again: seq<Backend>)
    requires Acceptable(check, key, r, creating) && check(name, r.description, key) == Some(name)
    requires IsSorting(stored, ResolveAll(r.backends)) && IsSorting(again, ResolveAll(Map(Spell, stored)))
    ensures var q := Resend(name, r.description, Filled(r.health), stored);
            Acceptable(check, key, q, creating) && Filled(q.health) == Filled(r.health) && again == stored
  {
    ResolveSpelled(stored);
    IntentIsCanonical(r.backends, Map(Spell, stored), Filled(r.health).port, creating, stored, again);
  }
}
