/**
 Load balancer intents: what a create or update request normalises to. Backends are a set,
 defaults are written out, and equivalent requests become one identical intent.
 */
module LoadBalancers {
  import opened Text
  import Uuid

  datatype Failure = InvalidArgument | ResourceNotFound

  datatype BackendInput = BackendInput(id: string, subnetID: string, address: string, port: nat, weight: Option<nat>)
  datatype Backend = Backend(id: string, subnetID: string, address: string, port: nat, weight: nat)

  datatype HealthInput = HealthInput(protocol: string, interval: Option<nat>, timeout: Option<nat>,
                                     unhealthy: Option<nat>, healthy: Option<nat>, port: Option<nat>)
  datatype Health = Health(interval: nat, timeout: nat, unhealthy: nat, healthy: nat, port: nat)

  datatype Mutable = Mutable(name: string, description: string, backends: seq<BackendInput>, health: HealthInput)

  function Default(v: Option<nat>, fallback: nat): nat { if v.None? then fallback else v.value }

  // -------- health --------

  function Filled(h: HealthInput): Health {
    Health(Default(h.interval, 5), Default(h.timeout, 3), Default(h.unhealthy, 3), Default(h.healthy, 1), Default(h.port, 0))
  }

  predicate HealthOk(h: HealthInput) {
    && (h.protocol == "" || h.protocol == "TCP")
    && h.port.Some? && 1 <= h.port.value <= 65535
    && 0 < Filled(h).timeout < Filled(h).interval && Filled(h).unhealthy > 0 && Filled(h).healthy > 0
  }

  // -------- one backend --------

  predicate IsLowerHex(c: char) { '0' <= c <= '9' || 'a' <= c <= 'f' }

  predicate ValidSubnetID(id: string) {
    |id| == 39 && id[..7] == "subnet_" && forall i :: 7 <= i < 39 ==> IsLowerHex(id[i])
  }

  function Dotted(a: nat, b: nat, c: nat, d: nat): string {
    Decimal(a) + "." + Decimal(b) + "." + Decimal(c) + "." + Decimal(d)
  }

  /** 10/8, 172.16/12 and 192.168/16. */
  predicate IsPrivate(a: nat, b: nat) { a == 10 || (a == 172 && 16 <= b < 32) || (a == 192 && b == 168) }

  /** Parses as a private IPv4 address and is printed exactly so. */
  predicate CanonicalPrivateV4(s: string) {
    exists a: nat, b: nat, c: nat, d: nat ::
      a < 256 && b < 256 && c < 256 && d < 256 && IsPrivate(a, b) && s == Dotted(a, b, c, d)
  }

  lemma DottedSplits(a: nat, b: nat, c: nat, d: nat, e: nat, f: nat, g: nat, h: nat)
    requires Dotted(a, b, c, d) == Dotted(e, f, g, h)
    ensures a == e && b == f && c == g && d == h
  {
    DottedJoins(a, b, c, d);
    DottedJoins(e, f, g, h);
    DotSplits(a, e, Rest(b, c, d), Rest(f, g, h));
    DotSplits(b, f, Decimal(c) + ['.'] + Decimal(d), Decimal(g) + ['.'] + Decimal(h));
    DotSplits(c, g, Decimal(d), Decimal(h));
    DecimalInjective(d, h);
  }

  function Rest(b: nat, c: nat, d: nat): string { Decimal(b) + ['.'] + (Decimal(c) + ['.'] + Decimal(d)) }

  lemma DottedJoins(a: nat, b: nat, c: nat, d: nat)
    ensures Dotted(a, b, c, d) == Decimal(a) + ['.'] + Rest(b, c, d)
  {
  }

  lemma DotSplits(m: nat, n: nat, x: string, y: string)
    requires Decimal(m) + ['.'] + x == Decimal(n) + ['.'] + y
    ensures m == n && x == y
  {
    SplitUnique(Decimal(m), Decimal(n), x, y, '.');
    DecimalInjective(m, n);
  }

  /** Of the dotted quadruples exactly the private addresses are taken, each in its one spelling. */
  lemma PrivateExactly(a: nat, b: nat, c: nat, d: nat)
    ensures CanonicalPrivateV4(Dotted(a, b, c, d)) <==>
              && a <= 255 && b <= 255 && c <= 255 && d <= 255
              && (a == 10 || (a == 172 && 16 <= b <= 31) || (a == 192 && b == 168))
  {
    if CanonicalPrivateV4(Dotted(a, b, c, d)) {
      var e: nat, f: nat, g: nat, h: nat :|
        e < 256 && f < 256 && g < 256 && h < 256 && IsPrivate(e, f) && Dotted(a, b, c, d) == Dotted(e, f, g, h);
      DottedSplits(a, b, c, d, e, f, g, h);
    }
  }

  /** What is asked of a backend on its own, given the health check port. */
  predicate BackendOk(x: BackendInput, port: nat, creating: bool) {
    && ValidSubnetID(x.subnetID) && CanonicalPrivateV4(x.address) && 1 <= x.port <= 65535 && x.port == port
    && (x.id == "" || (!creating && Uuid.IsCanonical(x.id)))
    && Default(x.weight, 1) <= 1000000
  }

  function EndpointKey(x: BackendInput): string { x.subnetID + "/" + x.address + "/" + Decimal(x.port) }

  /** Same member identity, or same endpoint. */
  predicate Clash(x: BackendInput, y: BackendInput) {
    (x.id != "" && x.id == y.id) || (x.subnetID == y.subnetID && x.address == y.address && x.port == y.port)
  }

  lemma DigitsHaveNoSlash(s: string)
    requires AllDigits(s)
    ensures '/' !in s
  {
  }

  lemma CanonicalHasNoSlash(s: string)
    requires CanonicalPrivateV4(s)
    ensures '/' !in s
  {
    var a: nat, b: nat, c: nat, d: nat :| s == Dotted(a, b, c, d);
    DigitsHaveNoSlash(Decimal(a));
    DigitsHaveNoSlash(Decimal(b));
    DigitsHaveNoSlash(Decimal(c));
    DigitsHaveNoSlash(Decimal(d));
  }

  lemma SubnetHasNoSlash(s: string)
    requires ValidSubnetID(s)
    ensures '/' !in s
  {
    forall i | 0 <= i < |s| ensures s[i] != '/' {
      if i < 7 { assert s[i] == s[..7][i]; }
    }
  }

  lemma KeySplits(s: string, t: string, a: string, b: string, m: nat, n: nat)
    requires '/' !in s && '/' !in t && '/' !in a && '/' !in b
    requires s + "/" + a + "/" + Decimal(m) == t + "/" + b + "/" + Decimal(n)
    ensures s == t && a == b && m == n
  {
    var x, y := a + "/" + Decimal(m), b + "/" + Decimal(n);
    assert s + "/" + a + "/" + Decimal(m) == s + ['/'] + x;
    assert t + "/" + b + "/" + Decimal(n) == t + ['/'] + y;
    SplitUnique(s, t, x, y, '/');
    SplitUnique(a, b, Decimal(m), Decimal(n), '/');
    DecimalInjective(m, n);
  }

  /** The text used as the endpoint's key determines the endpoint. */
  lemma EndpointKeyInjective(x: BackendInput, y: BackendInput)
    requires ValidSubnetID(x.subnetID) && CanonicalPrivateV4(x.address)
    requires ValidSubnetID(y.subnetID) && CanonicalPrivateV4(y.address)
    ensures EndpointKey(x) == EndpointKey(y) <==> x.subnetID == y.subnetID && x.address == y.address && x.port == y.port
  {
    SubnetHasNoSlash(x.subnetID);
    SubnetHasNoSlash(y.subnetID);
    CanonicalHasNoSlash(x.address);
    CanonicalHasNoSlash(y.address);
    if EndpointKey(x) == EndpointKey(y) {
      KeySplits(x.subnetID, y.subnetID, x.address, y.address, x.port, y.port);
    }
  }

  // -------- the backend set --------

  function Resolve(x: BackendInput): Backend { Backend(x.id, x.subnetID, x.address, x.port, Default(x.weight, 1)) }

  function Map<T, U>(f: T -> U, xs: seq<T>): (ys: seq<U>)
    ensures |ys| == |xs|
  {
    seq(|xs|, i requires 0 <= i < |xs| => f(xs[i]))
  }

  function ResolveAll(xs: seq<BackendInput>): seq<Backend> { Map(Resolve, xs) }

  predicate NoClash(xs: seq<BackendInput>) { forall i, j :: 0 <= i < j < |xs| ==> !Clash(xs[i], xs[j]) }

  predicate AllOk(xs: seq<BackendInput>, port: nat, creating: bool) {
    forall i :: 0 <= i < |xs| ==> BackendOk(xs[i], port, creating)
  }

  /** The backends of an acceptable request. */
  predicate BackendsOk(xs: seq<BackendInput>, port: nat, creating: bool) {
    |xs| > 0 && AllOk(xs, port, creating) && NoClash(xs)
  }

  // -------- the order --------

  function CompareText(a: string, b: string): int { if Less(a, b) then -1 else if Less(b, a) then 1 else 0 }

  /** Subnet, address, member identity, then port. */
  function Compare(a: Backend, b: Backend): int {
    if CompareText(a.subnetID, b.subnetID) != 0 then CompareText(a.subnetID, b.subnetID)
    else if CompareText(a.address, b.address) != 0 then CompareText(a.address, b.address)
    else if CompareText(a.id, b.id) != 0 then CompareText(a.id, b.id)
    else if a.port < b.port then -1 else if a.port > b.port then 1 else 0
  }

  lemma CompareTextOrder(a: string, b: string, c: string)
    ensures CompareText(a, b) == 0 <==> a == b
    ensures CompareText(a, b) == -CompareText(b, a)
    ensures CompareText(a, b) < 0 && CompareText(b, c) < 0 ==> CompareText(a, c) < 0
  {
    LessIrreflexive(a);
    LessTotal(a, b);
    if Less(a, b) { LessAsymmetric(a, b); }
    if Less(b, a) { LessAsymmetric(b, a); }
    if Less(a, b) && Less(b, c) { LessTransitive(a, b, c); }
  }

  /** A total order whose ties are exactly the pairs that agree on all four fields. */
  lemma CompareIsTotalOrder(a: Backend, b: Backend, c: Backend)
    ensures Compare(a, b) == 0 <==> a.subnetID == b.subnetID && a.address == b.address && a.id == b.id && a.port == b.port
    ensures Compare(a, b) == -Compare(b, a)
    ensures Compare(a, b) <= 0 && Compare(b, c) <= 0 ==> Compare(a, c) <= 0
  {
    CompareTextOrder(a.subnetID, b.subnetID, c.subnetID);
    CompareTextOrder(b.subnetID, c.subnetID, a.subnetID);
    CompareTextOrder(a.address, b.address, c.address);
    CompareTextOrder(b.address, c.address, a.address);
    CompareTextOrder(a.id, b.id, c.id);
    CompareTextOrder(b.id, c.id, a.id);
  }

  /** By subnet, then address, then member identity, then port, texts byte by byte. */
  lemma ComparesExactly(a: Backend, b: Backend)
    ensures Compare(a, b) < 0 <==>
              || Less(a.subnetID, b.subnetID)
              || (a.subnetID == b.subnetID && Less(a.address, b.address))
              || (a.subnetID == b.subnetID && a.address == b.address && Less(a.id, b.id))
              || (a.subnetID == b.subnetID && a.address == b.address && a.id == b.id && a.port < b.port)
  {
    CompareTextOrder(a.subnetID, b.subnetID, b.subnetID);
    CompareTextOrder(a.address, b.address, b.address);
    CompareTextOrder(a.id, b.id, b.id);
  }

  predicate Sorted(rs: seq<Backend>) { forall i, j :: 0 <= i < j < |rs| ==> Compare(rs[i], rs[j]) <= 0 }

  /** Any sorting of `rs`; the sort in use is not stable. */
  predicate IsSorting(sorted: seq<Backend>, rs: seq<Backend>) { Sorted(sorted) && multiset(sorted) == multiset(rs) }

  /** Insertion in front of the first element that is not smaller. */
  method SortFunc(rs: seq<Backend>) returns (sorted: seq<Backend>)
    ensures IsSorting(sorted, rs)
  {
    sorted := [];
    for n := 0 to |rs|
      invariant Sorted(sorted) && multiset(sorted) == multiset(rs[..n])
    {
      assert rs[..n + 1] == rs[..n] + [rs[n]];
      sorted := Insert(sorted, rs[n]);
    }
    assert rs[..|rs|] == rs;
  }

  method Insert(rs: seq<Backend>, x: Backend) returns (out: seq<Backend>)
    requires Sorted(rs)
    ensures Sorted(out) && multiset(out) == multiset(rs) + multiset{x}
  {
    var k := 0;
    while k < |rs| && Compare(rs[k], x) < 0
      invariant k <= |rs| && forall i :: 0 <= i < k ==> Compare(rs[i], x) < 0
    {
      k := k + 1;
    }
    out := rs[..k] + [x] + rs[k..];
    assert rs == rs[..k] + rs[k..];
    InsertedIsSorted(rs, x, k);
  }

  lemma InsertedIsSorted(rs: seq<Backend>, x: Backend, k: nat)
    requires Sorted(rs) && k <= |rs| && forall i :: 0 <= i < k ==> Compare(rs[i], x) < 0
    requires k < |rs| ==> Compare(rs[k], x) >= 0
    ensures Sorted(rs[..k] + [x] + rs[k..])
  {
    var out := rs[..k] + [x] + rs[k..];
    forall i, j | 0 <= i < j < |out| ensures Compare(out[i], out[j]) <= 0 {
      if i == k {
        assert out[j] == rs[j - 1];
        CompareIsTotalOrder(x, rs[k], rs[j - 1]);
        if j - 1 == k { CompareIsTotalOrder(rs[k], x, x); }
      } else if j == k {
        assert out[i] == rs[i];
      } else {
        assert out[i] == rs[if i < k then i else i - 1] && out[j] == rs[if j < k then j else j - 1];
      }
    }
  }
}
