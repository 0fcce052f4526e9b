/**
 The VPC and load balancer list operations end to end: tenant, filters, the cursor bound to them, the
 repository query, the page and the next cursor.
 */
module Queries {
  import opened Text
  import opened Base64
  import opened Cursors
  import opened Listing
  import Uuid

  /** Who asks through the tenant API: the own tenant and those delegated. */
  datatype Caller = Caller(tenantID: string, delegated: set<string>)

  /** Which list is asked for. Load balancers are filtered further. */
  datatype Scope = VPCs | LoadBalancers(caller: Caller, vpcID: string, subnetID: string, exposure: string)

  datatype Request = Request(tenantID: string, scope: Scope, name: RawText, state: string, cursor: seq<Byte>, limit: int)

  /** The repository port: a tenant's rows within a scope for a filter, or a failure. */
  type Repository = (string, Scope, Filter) -> Option<seq<Item>>

  /** `kind` is the text a cursor of this query carries. */
  datatype Query = Query(tenant: string, kind: string, filter: Filter)

  datatype Answer = Answer(items: seq<Item>, nextCursor: seq<Byte>)

  function ParseTenant(s: string): (r: Outcome<string>) {
    if |s| != 36 || !Uuid.Valid(s) then Err(TenantRequired) else Ok(Uuid.Canonical(s))
  }

  /** The tenant a caller may act for; none named means its own. */
  function Authorize(c: Caller, target: string): (r: Outcome<string>) {
    match ParseTenant(if target == "" then c.tenantID else target)
    case Err(e) => Err(e)
    case Ok(tenant) =>
      if ParseTenant(c.tenantID) != Ok(tenant) && tenant !in c.delegated then Err(PermissionDenied) else Ok(tenant)
  }

  function Tenant(r: Request): Outcome<string> {
    if r.scope.VPCs? then ParseTenant(r.tenantID) else Authorize(r.scope.caller, r.tenantID)
  }

  predicate IsLowerHex(c: char) { '0' <= c <= '9' || 'a' <= c <= 'f' }

  /** A prefix and thirty-two hexadecimal digits. */
  predicate IsIdentifier(id: string, prefix: string) {
    && |id| == |prefix| + 32 && id[..|prefix|] == prefix
    && forall i :: |prefix| <= i < |id| ==> IsLowerHex(id[i])
  }

  predicate ValidID(scope: Scope, id: string) { IsIdentifier(id, if scope.VPCs? then "vpc_" else "lb_") }

  /** The further filters of a load balancer list. */
  predicate ScopeOk(scope: Scope) {
    scope.LoadBalancers? ==>
      && (scope.vpcID == "" || IsIdentifier(scope.vpcID, "vpc_"))
      && (scope.subnetID == "" || IsIdentifier(scope.subnetID, "subnet_"))
      && scope.exposure in {"", "private", "public", "public_private"}
  }

  function Kind(k: Codec, scope: Scope): string {
    if scope.VPCs? then "vpc" else "load_balancer:" + k.fingerprint([scope.vpcID, scope.subnetID, scope.exposure])
  }

  /** A decoded cursor belongs to this query. */
  predicate Belongs(c: Cursor, scope: Scope, q: Query) {
    && c.version == 1 && c.kind == q.kind && c.tenantID == q.tenant && c.name == q.filter.name && c.state == q.filter.state
    && ValidID(scope, c.id) && c.createdAt != 0
  }

  /** Tenant and filters, before any cursor. */
  function Front(k: Codec, r: Request): (q: Outcome<Query>)
    ensures q.Ok? ==> 2 <= q.value.filter.limit <= 101 && q.value.filter.afterID == ""
  {
    match Tenant(r)
    case Err(e) => Err(e)
    case Ok(tenant) =>
      match Normalize(r.name, r.state, r.limit)
      case Err(e) => Err(e)
      case Ok(f) => if ScopeOk(r.scope) then Ok(Query(tenant, Kind(k, r.scope), f)) else Err(InvalidArgument)
  }

  /** The cursor, if any, must decode and belong to the query; then the query continues after it. */
  function Bind(k: Codec, scope: Scope, q: Query, cursor: seq<Byte>): (r: Outcome<Query>)
    ensures r.Ok? ==> r.value == q.(filter := r.value.filter) && r.value.filter.limit == q.filter.limit
  {
    if cursor == [] then Ok(q)
    else match DecodeCursor(k, cursor)
      case None => Err(InvalidCursor)
      case Some(c) =>
        if !Belongs(c, scope, q) then Err(InvalidCursor)
        else Ok(q.(filter := q.filter.(afterCreatedAt := c.createdAt, afterID := c.id)))
  }

  /** Everything before the repository is asked. */
  function Prepare(k: Codec, r: Request): (q: Outcome<Query>)
    ensures q.Ok? ==> 2 <= q.value.filter.limit <= 101
  {
    match Front(k, r)
    case Err(e) => Err(e)
    case Ok(q) => Bind(k, r.scope, q, r.cursor)
  }

  function NextCursor(q: Query, last: Key): Cursor {
    Cursor(1, q.kind, q.tenant, q.filter.name, q.filter.state, "", last.id, last.createdAt)
  }

  /** The page a list operation cuts: VPCs in a loop, load balancers by slicing. */
  function PageOf(scope: Scope, q: Query, rows: seq<Item>): Page
    requires q.filter.limit >= 2
  {
    if scope.VPCs? then Cutting(rows, q.filter.limit - 1) else Slicing(rows, q.filter.limit)
  }

  function Respond(k: Codec, scope: Scope, q: Query, rows: seq<Item>): Answer
    requires q.filter.limit >= 2
  {
    var page := PageOf(scope, q, rows);
    Answer(page.items, if page.next.None? then [] else EncodeCursor(k, NextCursor(q, page.next.value)))
  }

  /** Everything before the cursor, as the two operations write it. */
  method FrontQuery(k: Codec, r: Request) returns (q: Outcome<Query>)
    ensures q == Front(k, r)
  {
    var tenant := Tenant(r);
    if tenant.Err? { return Err(tenant.error); }
    var filter := NormalizeList(r.name, r.state, r.limit);
    if filter.Err? { return Err(filter.error); }
    if !ScopeOk(r.scope) { return Err(InvalidArgument); }
    q := Ok(Query(tenant.value, Kind(k, r.scope), filter.value));
  }

  method PrepareQuery(k: Codec, r: Request) returns (q: Outcome<Query>)
    ensures q == Prepare(k, r)
  {
    var front := FrontQuery(k, r);
    if front.Err? { return Err(front.error); }
    var query := front.value;
    if r.cursor != [] {
      var c := DecodeCursor(k, r.cursor);
      if c.None? || !Belongs(c.value, r.scope, query) { return Err(InvalidCursor); }
      query := query.(filter := query.filter.(afterCreatedAt := c.value.createdAt, afterID := c.value.id));
    }
    q := Ok(query);
  }

  method CutPage(scope: Scope, q: Query, rows: seq<Item>) returns (page: Page)
    requires q.filter.limit >= 2
    ensures page == PageOf(scope, q, rows)
  {
    if scope.VPCs? {
      page := CutByLoop(rows, q.filter.limit - 1);
    } else {
      page := CutBySlice(rows, q.filter.limit);
    }
  }

  /** The operations as written: prepare, query, cut, sign. */
  method List(k: Codec, repository: Repository, r: Request) returns (answer: Outcome<Answer>)
    ensures answer == match Prepare(k, r)
                      case Err(e) => Err(e)
                      case Ok(q) =>
                        match repository(q.tenant, r.scope, q.filter)
                        case None => Err(DatabaseFailure)
                        case Some(rows) => Ok(Respond(k, r.scope, q, rows))
  {
    var query := PrepareQuery(k, r);
    if query.Err? { return Err(query.error); }
    var q := query.value;
    var rows := repository(q.tenant, r.scope, q.filter);
    if rows.None? { return Err(DatabaseFailure); }
    var page := CutPage(r.scope, q, rows.value);
    var next := [];
    if page.next.Some? { next := EncodeCursor(k, NextCursor(q, page.next.value)); }
    answer := Ok(Answer(page.items, next));
  }

  // -------- what is accepted, and what comes back --------

  /** The cursor was made for this query: version, kind, tenant and filters agree, and it names a row there could be. */
  predicate MadeFor(c: Cursor, scope: Scope, q: Query) {
    && c.version == 1 && c.tenantID == q.tenant && c.kind == q.kind && c.name == q.filter.name && c.state == q.filter.state
    && c.createdAt > 0 && (scope.VPCs? ==> IsIdentifier(c.id, "vpc_")) && (scope.LoadBalancers? ==> IsIdentifier(c.id, "lb_"))
  }

  /** The text is the signed form of a body that reads as this cursor, and no longer than the limit. */
  ghost predicate Signs(k: Codec, text: seq<Byte>, c: Cursor) {
    |text| <= 2048 && exists body :: text == Signed(k, body) && k.parse(body) == Some(c)
  }

  /** A request is taken exactly when its tenant, filters and scope are in order and it either carries no
      cursor or carries the signed cursor of a key, of this very query, to continue after. */
  lemma PreparedExactly(k: Codec, r: Request, q: Query)
    ensures Prepare(k, r) == Ok(q) <==>
              && Front(k, r).Ok?
              && ((r.cursor == [] && Front(k, r) == Ok(q))
                  || exists c :: r.cursor != [] && Signs(k, r.cursor, c) && MadeFor(c, r.scope, Front(k, r).value)
                       && q == Front(k, r).value.(filter := From(Front(k, r).value.filter, Some(Key(c.createdAt, c.id)))))
  {
    if Front(k, r).Ok? && r.cursor != [] {
      var q0 := Front(k, r).value;
      forall c ensures DecodeCursor(k, r.cursor) == Some(c) <==> Signs(k, r.cursor, c) { AcceptedExactly(k, r.cursor, c); }
      if DecodeCursor(k, r.cursor).Some? { assert DecodeCursor(k, r.cursor) == Some(DecodeCursor(k, r.cursor).value); }
    }
  }

  /** One cursor text never serves two tenants, two kinds of list, or two filters. */
  lemma CursorsAreNotShared(k: Codec, r: Request, s: Request)
    requires r.cursor == s.cursor != [] && Prepare(k, r).Ok? && Prepare(k, s).Ok?
    ensures var p, q := Prepare(k, r).value, Prepare(k, s).value;
            && p.tenant == q.tenant && p.kind == q.kind && p.filter.name == q.filter.name && p.filter.state == q.filter.state
            && p.filter.afterID == q.filter.afterID && p.filter.afterCreatedAt == q.filter.afterCreatedAt
  {
  }

  // -------- tenants, identifiers and filters --------

  /** Tenants are non-nil UUIDs of 36 characters, taken in printed form. */
  lemma TenantsExactly(s: string, t: string)
    ensures ParseTenant(s) == Ok(t) <==> |s| == 36 && Uuid.Valid(s) && t == Uuid.Canonical(s)
    ensures ParseTenant(s).Err? ==> ParseTenant(s) == Err(TenantRequired)
    ensures ParseTenant(s) == Ok(t) ==> ParseTenant(t) == Ok(t)
  {
    if ParseTenant(s).Ok? { Uuid.CanonicalIsFixed(s); }
  }

  /** A caller acts for its own tenant, also unnamed, and for delegated ones, and for no other. */
  lemma CallersAreConfined(c: Caller, target: string, t: string)
    ensures Authorize(c, target) == Ok(t) ==> ParseTenant(c.tenantID) == Ok(t) || t in c.delegated
    ensures Authorize(c, target) == Ok(t) && target != "" ==> ParseTenant(target) == Ok(t)
    ensures target == "" || target == c.tenantID ==> Authorize(c, target) == ParseTenant(c.tenantID)
    ensures target != "" && ParseTenant(target) == Ok(t) && t in c.delegated ==> Authorize(c, target) == Ok(t)
    ensures target != "" && ParseTenant(target) == Ok(t) && t !in c.delegated && ParseTenant(c.tenantID) != Ok(t) ==>
              Authorize(c, target) == Err(PermissionDenied)
  {
  }

  lemma IdentifiersExactly(scope: Scope, id: string)
    ensures ValidID(scope, id) <==>
              && |id| == (if scope.VPCs? then 36 else 35)
              && (if scope.VPCs? then id[0] == 'v' && id[1] == 'p' && id[2] == 'c' && id[3] == '_'
                  else id[0] == 'l' && id[1] == 'b' && id[2] == '_')
              && forall i :: |id| - 32 <= i < |id| ==> '0' <= id[i] <= '9' || 'a' <= id[i] <= 'f'
  {
    if scope.VPCs? && |id| == 36 { assert id[..4] == [id[0], id[1], id[2], id[3]]; }
    if !scope.VPCs? && |id| == 35 { assert id[..3] == [id[0], id[1], id[2]]; }
  }

  /** The front of a request is taken exactly when its tenant may be acted for and its filters are in order. */
  lemma FrontExactly(k: Codec, r: Request, q: Query)
    ensures Front(k, r) == Ok(q) <==>
              && (r.scope.VPCs? ==> ParseTenant(r.tenantID) == Ok(q.tenant) && q.kind == "vpc")
              && (r.scope.LoadBalancers? ==>
                    && Authorize(r.scope.caller, r.tenantID) == Ok(q.tenant)
                    && q.kind == "load_balancer:" + k.fingerprint([r.scope.vpcID, r.scope.subnetID, r.scope.exposure])
                    && (r.scope.vpcID == "" || IsIdentifier(r.scope.vpcID, "vpc_"))
                    && (r.scope.subnetID == "" || IsIdentifier(r.scope.subnetID, "subnet_"))
                    && (r.scope.exposure == "" || r.scope.exposure == "private" || r.scope.exposure == "public"
                        || r.scope.exposure == "public_private"))
              && Normalize(r.name, r.state, r.limit) == Ok(q.filter)
  {
  }

  /** Given the repository's promise, the answer holds the first matching rows in order, and a cursor exactly
      when some matching row is still to come; whatever is still to come comes after the page. */
  lemma AnswerIsFirstRows(k: Codec, scope: Scope, q: Query, table: set<Item>, rows: seq<Item>)
    requires q.filter.limit >= 2 && IsListing(rows, table, q.filter)
    ensures var a := Respond(k, scope, q, rows);
            && Ascending(a.items) && |a.items| < q.filter.limit
            && (forall i :: 0 <= i < |a.items| ==> Eligible(a.items[i], table, q.filter))
            && (a.nextCursor != [] <==> exists x :: Eligible(x, table, q.filter) && x !in a.items)
            && (forall x, i :: Eligible(x, table, q.filter) && x !in a.items && 0 <= i < |a.items| ==>
                  Precedes(a.items[i].key, x.key))
  {
    var a, page := Respond(k, scope, q, rows), PageOf(scope, q, rows);
    CuttersAgree(rows, q.filter.limit - 1);
    if page.next.Some? {
      CursorIsNotEmpty(k, NextCursor(q, page.next.value));
      var x := rows[|rows| - 1];
      forall i | 0 <= i < |a.items| ensures a.items[i] != x { PrecedesIsStrictTotalOrder(rows[i].key, x.key, x.key); }
      assert Eligible(x, table, q.filter) && x !in a.items;
      forall y, i | Eligible(y, table, q.filter) && y !in a.items && 0 <= i < |a.items| ensures Precedes(a.items[i].key, y.key) {
        if y in rows { assert y == x; }
      }
    } else {
      assert a.items == rows && |rows| < q.filter.limit;
    }
  }

  lemma TenantIsPlain(r: Request)
    requires Tenant(r).Ok?
    ensures |Tenant(r).value| == 36 && IsPlain(Tenant(r).value)
  {
    if r.scope.VPCs? { PrintedIsPlain(r.tenantID); }
    else { PrintedIsPlain(if r.tenantID == "" then r.scope.caller.tenantID else r.tenantID); }
  }

  lemma PrintedIsPlain(s: string)
    requires ParseTenant(s).Ok?
    ensures |ParseTenant(s).value| == 36 && IsPlain(ParseTenant(s).value)
  {
    Uuid.CanonicalIsFixed(s);
  }

  lemma StateIsPlain(s: string)
    requires s in STATES
    ensures IsPlain(s) && |s| <= 12
  {
  }

  lemma IDIsPlain(scope: Scope, id: string)
    requires ValidID(scope, id)
    ensures IsPlain(id) && 0 < |id| <= 39
  {
    var prefix := if scope.VPCs? then "vpc_" else "lb_";
    forall i | 0 <= i < |id| ensures PlainChar(id[i]) {
      if i < |prefix| { assert id[i] == id[..|prefix|][i]; }
    }
  }

  lemma KindIsPlain(k: Codec, scope: Scope)
    ensures IsPlain(Kind(k, scope)) && |Kind(k, scope)| <= 78
  {
  }

  lemma NextCursorFits(k: Codec, r: Request, q: Query, last: Key)
    requires Front(k, r).Ok? && ValidID(r.scope, last.id)
    requires q.(filter := q.filter.(afterID := "", afterCreatedAt := 0)) == Front(k, r).value
    ensures Fitting(NextCursor(q, last))
  {
    TenantIsPlain(r);
    StateIsPlain(r.state);
    IDIsPlain(r.scope, last.id);
    KindIsPlain(k, r.scope);
  }

  /** A request may repeat its filters as first written or as normalised. */
  predicate SameFilters(k: Codec, r: Request, s: Request) { s.scope == r.scope && Front(k, s) == Front(k, r) }

  lemma CursorIsNotEmpty(k: Codec, c: Cursor)
    ensures EncodeCursor(k, c) != []
  {
    assert DOT in EncodeCursor(k, c);
  }

  /** An issued cursor is accepted exactly by queries of its own tenant, kind, name and state, if it names a row there
      could be and its time has a printed form; they continue right after it. */
  lemma CursorsAreBound(k: Codec, scope: Scope, c: Cursor, q: Query)
    requires RoundTrips(k) && Fitting(c)
    ensures Bind(k, scope, q, EncodeCursor(k, c))
         == if c.createdAt < END_OF_PRINTING && MadeFor(c, scope, q) then Ok(q.(filter := From(q.filter, Some(Key(c.createdAt, c.id)))))
            else Err(InvalidCursor)
  {
    CursorIsNotEmpty(k, c);
  }

  /** The cursor of a page, sent back with the same filters, is accepted and continues right after the page
      exactly if the last item's creation time has a printed form: the length limit never stands in the way. */
  lemma IssuedCursorContinues(k: Codec, r: Request, q: Query, last: Key, s: Request)
    requires Prepare(k, r) == Ok(q) && ValidID(r.scope, last.id) && last.createdAt != 0
    requires RoundTrips(k) && SameFilters(k, r, s) && s.cursor == EncodeCursor(k, NextCursor(q, last))
    ensures Prepare(k, s)
         == if Printable(last.createdAt) then Ok(q.(filter := From(q.filter, Some(last)))) else Err(InvalidCursor)
  {
    var front := Front(k, r).value;
    NextCursorFits(k, r, q, last);
    CursorsAreBound(k, r.scope, NextCursor(q, last), front);
  }

  /** The cursor a page hands out is that of the page's last item with the query's own tenant, kind and filters. */
  lemma CursorOfPage(k: Codec, scope: Scope, q: Query, table: set<Item>, rows: seq<Item>)
    requires q.filter.limit >= 2 && IsListing(rows, table, q.filter)
    ensures var a := Respond(k, scope, q, rows);
            a.nextCursor != [] ==>
              |a.items| > 0 && var last := a.items[|a.items| - 1].key;
              a.nextCursor == EncodeCursor(k, Cursor(1, q.kind, q.tenant, q.filter.name, q.filter.state, "", last.id, last.createdAt))
  {
    var page := PageOf(scope, q, rows);
    if page.next.Some? { assert page.items[|page.items| - 1].key == page.next.value; }
  }

  /** And it reads as such. */
  lemma CursorOfPageReads(k: Codec, r: Request, q: Query, last: Key)
    requires RoundTrips(k) && Prepare(k, r) == Ok(q) && ValidID(r.scope, last.id) && last.createdAt < END_OF_PRINTING
    ensures var c := Cursor(1, q.kind, q.tenant, q.filter.name, q.filter.state, "", last.id, last.createdAt);
            DecodeCursor(k, EncodeCursor(k, c)) == Some(c)
  {
    NextCursorFits(k, r, q, last);
  }

  /** Cursors of a load balancer list do not pass for those of a list with other filters, unless the digests collide. */
  lemma ScopesAreSeparate(k: Codec, r: Request, q: Query, last: Key, s: Request)
    requires RoundTrips(k) && Prepare(k, r) == Ok(q) && ValidID(r.scope, last.id) && last.createdAt != 0
    requires r.scope.LoadBalancers? && s.scope.LoadBalancers? && Front(k, s).Ok?
    requires s.cursor == EncodeCursor(k, NextCursor(q, last)) && Prepare(k, s).Ok?
    ensures k.fingerprint([r.scope.vpcID, r.scope.subnetID, r.scope.exposure])
         == k.fingerprint([s.scope.vpcID, s.scope.subnetID, s.scope.exposure])
  {
    assert Kind(k, r.scope) == Kind(k, s.scope) by {
      NextCursorFits(k, r, q, last);
      CursorsAreBound(k, s.scope, NextCursor(q, last), Front(k, s).value);
    }
    KindsSeparate(k, r.scope, s.scope);
  }

  lemma KindsSeparate(k: Codec, a: Scope, b: Scope)
    requires a.LoadBalancers? && b.LoadBalancers? && Kind(k, a) == Kind(k, b)
    ensures k.fingerprint([a.vpcID, a.subnetID, a.exposure]) == k.fingerprint([b.vpcID, b.subnetID, b.exposure])
  {
    assert Kind(k, a)[14..] == k.fingerprint([a.vpcID, a.subnetID, a.exposure]);
    assert Kind(k, b)[14..] == k.fingerprint([b.vpcID, b.subnetID, b.exposure]);
  }

  /** Sending the normalised filters is sending the same filters. */
  lemma NormalisedFiltersAreTheSame(k: Codec, r: Request, cursor: seq<Byte>)
    requires Normalize(r.name, r.state, r.limit).Ok?
    ensures var f := Normalize(r.name, r.state, r.limit).value;
            Front(k, r).Ok? ==>
              SameFilters(k, r, Request(r.tenantID, r.scope, Utf8Text(f.name), f.state, cursor, f.limit - 1))
  {
    NormalizeIdempotent(r.name, r.state, r.limit);
  }
}
