/**
 Whole sessions of a client that follows signed cursors, over VPCs or load balancers, while the table
 changes between its requests. First for any lawful list service, then for the list operations.
 */
module Sessions {
  import opened Text
  import opened Base64
  import opened Cursors
  import opened Listing
  import opened Queries

  /** A list service: tenant and filters, the whole preparation, and the cursor for a page of rows. */
  datatype Service = Service(front: Request -> Outcome<Query>, prepare: Request -> Outcome<Query>,
                             next: (Scope, Query, seq<Item>) -> seq<Byte>)

  /** Stored rows carry a valid identifier and a creation time. */
  ghost predicate Stored(scope: Scope, table: set<Item>) {
    forall x :: x in table ==> ValidID(scope, x.key.id) && x.key.createdAt != 0
  }

  /** One query of a session, answered from the scope's rows as they then are, and the cursor handed out. */
  ghost predicate Turn(s: Service, v: Visit, r: Request, next: seq<Byte>) {
    && s.prepare(r).Ok? && Stored(r.scope, v.table) && IsListing(v.rows, v.table, s.prepare(r).value.filter)
    && next == s.next(r.scope, s.prepare(r).value, v.rows)
  }

  /** A client that sends each page's cursor back with the same request until there is none. */
  ghost predicate Session(s: Service, visits: seq<Visit>, cursors: seq<seq<Byte>>, r: Request) {
    && |visits| == |cursors| > 0
    && Turn(s, visits[0], r, cursors[0])
    && if |visits| == 1 then cursors[0] == []
       else cursors[0] != [] && Session(s, visits[1..], cursors[1..], r.(cursor := cursors[0]))
  }

  // -------- any lawful service --------

  function Continued(q: Query, from: Option<Key>): Query { q.(filter := From(q.filter, from)) }

  /** The request asks for `q0`, continued after `from`. */
  predicate Asks(s: Service, r: Request, q0: Query, from: Option<Key>) {
    s.front(r) == Ok(q0) && s.prepare(r) == Ok(Continued(q0, from))
  }

  /** A page is cut, and continued, only from rows the repository may return. */
  ghost predicate Pageable(scope: Scope, q: Query, rows: seq<Item>) {
    && 2 <= q.filter.limit && |rows| <= q.filter.limit
    && forall i :: 0 <= i < |rows| ==> ValidID(scope, rows[i].key.id) && rows[i].key.createdAt != 0
  }

  /** A cursor is handed out exactly when there is more. */
  ghost predicate HandsOut(s: Service) {
    forall scope, q, rows | Pageable(scope, q, rows) ::
      s.next(scope, q, rows) == [] <==> Cutting(rows, q.filter.limit - 1).next.None?
  }

  /** A request with the cursor handed out, if it is accepted, asks for the rest. */
  ghost predicate TakesBack(s: Service) {
    forall r, q0, from, rows | Asks(s, r, q0, from) && Pageable(r.scope, Continued(q0, from), rows) ::
      Follows(s, r, q0, rows, s.next(r.scope, Continued(q0, from), rows))
  }

  ghost predicate Follows(s: Service, r: Request, q0: Query, rows: seq<Item>, next: seq<Byte>)
    requires q0.filter.limit >= 2
  {
    next != [] && s.prepare(r.(cursor := next)).Ok? ==>
      Asks(s, r.(cursor := next), q0, Cutting(rows, q0.filter.limit - 1).next)
  }

  ghost predicate Lawful(s: Service) {
    && (forall r :: s.front(r).Ok? ==> s.front(r).value.filter.limit >= 2)
    && HandsOut(s) && TakesBack(s)
  }

  lemma TraversalStep(visits: seq<Visit>, f: Filter, from: Option<Key>)
    requires f.limit >= 2 && |visits| > 0 && IsListing(visits[0].rows, visits[0].table, From(f, from))
    requires Cutting(visits[0].rows, f.limit - 1).next.None? ==> |visits| == 1
    requires Cutting(visits[0].rows, f.limit - 1).next.Some? ==>
               Traversal(visits[1..], f, Cutting(visits[0].rows, f.limit - 1).next)
    ensures Traversal(visits, f, from)
  {
  }

  lemma RowsArePageable(s: Service, v: Visit, r: Request, next: seq<Byte>, q0: Query, from: Option<Key>)
    requires Lawful(s) && Asks(s, r, q0, from) && Turn(s, v, r, next)
    ensures q0.filter.limit >= 2 && IsListing(v.rows, v.table, From(q0.filter, from))
    ensures Pageable(r.scope, Continued(q0, from), v.rows) && next == s.next(r.scope, Continued(q0, from), v.rows)
  {
    forall i | 0 <= i < |v.rows| ensures v.rows[i] in v.table { assert Eligible(v.rows[i], v.table, From(q0.filter, from)); }
  }

  /** A turn lists the query's first rows, and a request with its cursor asks for the rest. */
  lemma TurnContinues(s: Service, v: Visit, r: Request, next: seq<Byte>, q0: Query, from: Option<Key>)
    requires Lawful(s) && Asks(s, r, q0, from) && Turn(s, v, r, next)
    ensures q0.filter.limit >= 2 && IsListing(v.rows, v.table, From(q0.filter, from))
    ensures Cutting(v.rows, q0.filter.limit - 1).next.None? <==> next == []
    ensures Follows(s, r, q0, v.rows, next)
  {
    RowsArePageable(s, v, r, next, q0, from);
  }

  /** A session of a lawful service is a traversal by keys. */
  lemma {:induction false} SessionIsTraversal(s: Service, visits: seq<Visit>, cursors: seq<seq<Byte>>, r: Request, q0: Query,
                                              from: Option<Key>)
    requires Lawful(s) && Asks(s, r, q0, from) && Session(s, visits, cursors, r)
    ensures q0.filter.limit >= 2 && Traversal(visits, q0.filter, from)
    decreases |visits|
  {
    TurnContinues(s, visits[0], r, cursors[0], q0, from);
    if cursors[0] != [] {
      assert s.prepare(r.(cursor := cursors[0])).Ok? by { assert Turn(s, visits[1..][0], r.(cursor := cursors[0]), cursors[1..][0]); }
      SessionIsTraversal(s, visits[1..], cursors[1..], r.(cursor := cursors[0]), q0,
                         Cutting(visits[0].rows, q0.filter.limit - 1).next);
    }
    TraversalStep(visits, q0.filter, from);
  }

  // -------- the list operations --------

  function NextText(k: Codec, scope: Scope, q: Query, rows: seq<Item>): seq<Byte> {
    if q.filter.limit >= 2 then Respond(k, scope, q, rows).nextCursor else []
  }

  /** VPC and load balancer lists. */
  function ListService(k: Codec): Service {
    Service(r => Front(k, r), r => Prepare(k, r), (scope, q, rows) => NextText(k, scope, q, rows))
  }

  lemma NextTextFacts(k: Codec, scope: Scope, q: Query, rows: seq<Item>)
    requires 2 <= q.filter.limit && |rows| <= q.filter.limit
    ensures var last := Cutting(rows, q.filter.limit - 1).next;
            && (NextText(k, scope, q, rows) == [] <==> last.None?)
            && (last.Some? ==> NextText(k, scope, q, rows) == EncodeCursor(k, NextCursor(q, last.value)))
  {
    assert PageOf(scope, q, rows) == Cutting(rows, q.filter.limit - 1) by { CuttersAgree(rows, q.filter.limit - 1); }
    var last := Cutting(rows, q.filter.limit - 1).next;
    if last.Some? { CursorIsNotEmpty(k, NextCursor(q, last.value)); }
  }

  /** Either the follow-up request asks for the rest, or its cursor, for want of a printed time, is refused. */
  lemma NextRequest(k: Codec, r: Request, q0: Query, from: Option<Key>, last: Option<Key>, next: seq<Byte>)
    requires RoundTrips(k) && Front(k, r) == Ok(q0) && Prepare(k, r) == Ok(Continued(q0, from))
    requires last.Some? && ValidID(r.scope, last.value.id) && last.value.createdAt != 0
    requires next == EncodeCursor(k, NextCursor(Continued(q0, from), last.value)) && Prepare(k, r.(cursor := next)).Ok?
    ensures Asks(ListService(k), r.(cursor := next), q0, last)
  {
    IssuedCursorContinues(k, r, Continued(q0, from), last.value, r.(cursor := next));
  }

  lemma ListFollows(k: Codec, r: Request, q0: Query, from: Option<Key>, rows: seq<Item>, next: seq<Byte>)
    requires RoundTrips(k) && Front(k, r) == Ok(q0) && Prepare(k, r) == Ok(Continued(q0, from))
    requires Pageable(r.scope, Continued(q0, from), rows)
    requires var last := Cutting(rows, q0.filter.limit - 1).next;
             if last.None? then next == [] else next == EncodeCursor(k, NextCursor(Continued(q0, from), last.value))
    ensures Follows(ListService(k), r, q0, rows, next)
  {
    var last := Cutting(rows, q0.filter.limit - 1).next;
    if next != [] && Prepare(k, r.(cursor := next)).Ok? {
      assert last.value == rows[q0.filter.limit - 2].key;
      NextRequest(k, r, q0, from, last, next);
    }
  }

  lemma ListTakesBack(k: Codec)
    requires RoundTrips(k)
    ensures TakesBack(ListService(k))
  {
    var s := ListService(k);
    forall r, q0, from, rows | Asks(s, r, q0, from) && Pageable(r.scope, Continued(q0, from), rows)
      ensures Follows(s, r, q0, rows, s.next(r.scope, Continued(q0, from), rows))
    {
      NextTextFacts(k, r.scope, Continued(q0, from), rows);
      ListFollows(k, r, q0, from, rows, NextText(k, r.scope, Continued(q0, from), rows));
    }
  }

  /** The list operations are lawful. */
  lemma ListIsLawful(k: Codec)
    requires RoundTrips(k)
    ensures Lawful(ListService(k))
  {
    ListTakesBack(k);
    var s := ListService(k);
    forall scope, q, rows | Pageable(scope, q, rows)
      ensures s.next(scope, q, rows) == [] <==> Cutting(rows, q.filter.limit - 1).next.None?
    {
      NextTextFacts(k, scope, q, rows);
    }
  }

  lemma SessionTraverses(s: Service, visits: seq<Visit>, cursors: seq<seq<Byte>>, r: Request)
    requires Lawful(s) && s.front(r).Ok? && s.prepare(r) == Ok(Continued(s.front(r).value, None)) && Session(s, visits, cursors, r)
    ensures s.front(r).value.filter.limit >= 2 && Traversal(visits, s.front(r).value.filter, None)
  {
    SessionIsTraversal(s, visits, cursors, r, s.front(r).value, None);
  }

  lemma SessionBegins(k: Codec, r: Request)
    requires r.cursor == [] && Prepare(k, r).Ok?
    ensures Front(k, r).Ok? && Prepare(k, r) == Ok(Continued(Front(k, r).value, None))
  {
  }

  /** So a client paging through VPCs or load balancers while they come and go sees none twice, and sees
      every one that matched all along. The codec in use round-trips by JsonRoundTrips. */
  lemma SessionIsExact(k: Codec, visits: seq<Visit>, cursors: seq<seq<Byte>>, r: Request, key: Key)
    requires RoundTrips(k) && r.cursor == [] && Session(ListService(k), visits, cursors, r)
    ensures Front(k, r).Ok? && Exact(visits, Front(k, r).value.filter, key)
  {
    ListIsLawful(k);
    SessionBegins(k, r);
    SessionTraverses(ListService(k), visits, cursors, r);
    TraversalIsExact(visits, Front(k, r).value.filter, key);
  }
}
