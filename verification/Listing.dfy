/**
 Keyset pagination: the filter check, the order of a listing, the two page cutters, and
 what a client that follows cursors receives, also while the table changes.
 */
module Listing {
  import opened Text
  import opened Evidence

  // -------- filters --------

  /** A request text as received: UTF-8 or not. */
  datatype RawText = Utf8Text(s: string) | NotUtf8

  datatype Failure = TenantRequired | PermissionDenied | InvalidArgument | InvalidCursor | DatabaseFailure
  datatype Outcome<+T> = Ok(value: T) | Err(error: Failure)

  datatype Filter = Filter(name: string, state: string, afterID: string, afterCreatedAt: Time, limit: nat)

  /** `unicode.IsSpace`. */
  predicate IsSpace(c: char) {
    var n := c as int;
    9 <= n <= 13 || n == 32 || n == 0x85 || n == 0xA0 || n == 0x1680 || 0x2000 <= n <= 0x200A
    || n == 0x2028 || n == 0x2029 || n == 0x202F || n == 0x205F || n == 0x3000
  }

  /** `unicode.IsControl`. */
  predicate IsControl(c: char) { c as int < 32 || 0x7F <= c as int < 0xA0 }

  function TrimLeft(s: string): (t: string)
    ensures |t| <= |s| && (|t| > 0 ==> !IsSpace(t[0]))
  {
    if |s| > 0 && IsSpace(s[0]) then TrimLeft(s[1..]) else s
  }

  function TrimRight(s: string): (t: string)
    ensures |t| <= |s| && t == s[..|t|] && (|t| > 0 ==> !IsSpace(t[|t| - 1]))
  {
    if |s| > 0 && IsSpace(s[|s| - 1]) then TrimRight(s[..|s| - 1]) else s
  }

  /** `strings.TrimSpace`. */
  function Trim(s: string): string { TrimRight(TrimLeft(s)) }

  const STATES: set<string> := {"", "provisioning", "available", "degraded", "failed", "deleting", "deleted"}

  /** The accepted filters, with the limit asking the repository for one row more than a page. */
  function Normalize(name: RawText, state: string, limit: int): (r: Outcome<Filter>) {
    var size := if limit == 0 then 20 else limit;
    if size < 1 || size > 100 || name.NotUtf8? || |Trim(name.s)| > 128 || state !in STATES
       || exists i :: 0 <= i < |Trim(name.s)| && IsControl(Trim(name.s)[i]) then Err(InvalidArgument)
    else Ok(Filter(Trim(name.s), state, "", 0, size + 1))
  }

  /** The check as written: the limit is replaced, then the name, then scanned rune by rune. */
  method NormalizeList(name: RawText, state: string, limit: int) returns (r: Outcome<Filter>)
    ensures r == Normalize(name, state, limit)
  {
    var size := limit;
    if size == 0 { size := 20; }
    if size < 1 || size > 100 { return Err(InvalidArgument); }
    if name.NotUtf8? { return Err(InvalidArgument); }
    var text := Trim(name.s);
    if |text| > 128 { return Err(InvalidArgument); }
    for i := 0 to |text|
      invariant forall j :: 0 <= j < i ==> !IsControl(text[j])
    {
      if IsControl(text[i]) { return Err(InvalidArgument); }
    }
    if state !in STATES { return Err(InvalidArgument); }
    return Ok(Filter(text, state, "", 0, size + 1));
  }

  lemma TrimIsTight(s: string)
    requires |s| == 0 || (!IsSpace(s[0]) && !IsSpace(s[|s| - 1]))
    ensures Trim(s) == s
  {
  }

  /** Filters that were accepted once are accepted again unchanged. */
  lemma NormalizeIdempotent(name: RawText, state: string, limit: int)
    requires Normalize(name, state, limit).Ok?
    ensures var f := Normalize(name, state, limit).value;
            Normalize(Utf8Text(f.name), f.state, f.limit - 1) == Ok(f)
  {
    var t := TrimLeft(name.s);
    assert Trim(name.s) == t[..|Trim(name.s)|];
    TrimIsTight(Trim(name.s));
  }

  /** Filters are taken exactly with a page size of 1 to 100, or none for 20, a UTF-8 name of at most 128 characters after
      trimming and none of them a control character, and a known state; one row more than a page is asked for. */
  lemma NormalizesExactly(name: RawText, state: string, limit: int, f: Filter)
    ensures Normalize(name, state, limit) == Ok(f) <==>
              && f.limit == (if limit == 0 then 21 else limit + 1) && 0 <= limit <= 100
              && name.Utf8Text? && f.name == Trim(name.s) && |f.name| <= 128
              && (forall i :: 0 <= i < |f.name| ==> 32 <= f.name[i] as int < 127 || 160 <= f.name[i] as int)
              && f.state == state && f.afterID == "" && f.afterCreatedAt == 0
              && (state == "" || state == "provisioning" || state == "available" || state == "degraded" || state == "failed"
                  || state == "deleting" || state == "deleted")
    ensures Normalize(name, state, limit).Err? ==> Normalize(name, state, limit) == Err(InvalidArgument)
  {
  }

  /** The white space of Unicode, by code. */
  lemma SpacesExactly(c: char)
    ensures IsSpace(c) <==>
              c as int in {9, 10, 11, 12, 13, 32, 133, 160, 5760, 8192, 8193, 8194, 8195, 8196, 8197, 8198, 8199, 8200, 8201, 8202,
                           8232, 8233, 8239, 8287, 12288}
  {
  }

  /** Trimming takes away exactly the spaces around a text. */
  lemma TrimsExactly(s: string) returns (before: string, after: string)
    ensures s == before + Trim(s) + after
    ensures (forall i :: 0 <= i < |before| ==> IsSpace(before[i])) && (forall i :: 0 <= i < |after| ==> IsSpace(after[i]))
    ensures Trim(s) != "" ==> !IsSpace(Trim(s)[0]) && !IsSpace(Trim(s)[|Trim(s)| - 1])
  {
    before := TrimmedLeft(s);
    after := TrimmedRight(TrimLeft(s));
  }

  lemma {:induction false} TrimmedLeft(s: string) returns (before: string)
    ensures s == before + TrimLeft(s) && forall i :: 0 <= i < |before| ==> IsSpace(before[i])
  {
    before := "";
    if |s| > 0 && IsSpace(s[0]) {
      before := TrimmedLeft(s[1..]);
      before := [s[0]] + before;
    }
  }

  lemma {:induction false} TrimmedRight(s: string) returns (after: string)
    ensures s == TrimRight(s) + after && forall i :: 0 <= i < |after| ==> IsSpace(after[i])
  {
    after := "";
    if |s| > 0 && IsSpace(s[|s| - 1]) {
      after := TrimmedRight(s[..|s| - 1]);
      after := after + [s[|s| - 1]];
    }
  }

  // -------- the order of a listing --------

  datatype Key = Key(createdAt: Time, id: string)
  datatype Item = Item(key: Key, name: string, state: string)

  /** Newest first; among equals the larger identifier first. */
  predicate Precedes(a: Key, b: Key) {
    a.createdAt > b.createdAt || (a.createdAt == b.createdAt && Less(b.id, a.id))
  }

  lemma PrecedesIsStrictTotalOrder(a: Key, b: Key, c: Key)
    ensures !Precedes(a, a)
    ensures Precedes(a, b) && Precedes(b, c) ==> Precedes(a, c)
    ensures a == b || Precedes(a, b) || Precedes(b, a)
    ensures Precedes(a, b) ==> !Precedes(b, a) && a != b
  {
    LessIrreflexive(a.id);
    LessTotal(a.id, b.id);
    if Less(b.id, a.id) { LessAsymmetric(b.id, a.id); }
    if Less(c.id, b.id) && Less(b.id, a.id) { LessTransitive(c.id, b.id, a.id); }
  }

  predicate Ascending(rows: seq<Item>) {
    forall i, j :: 0 <= i < j < |rows| ==> Precedes(rows[i].key, rows[j].key)
  }

  predicate Matches(x: Item, f: Filter) {
    (f.name == "" || x.name == f.name) && ((f.state == "" && x.state != "deleted") || x.state == f.state)
  }

  predicate Beyond(k: Key, f: Filter) { f.afterID == "" || Precedes(Key(f.afterCreatedAt, f.afterID), k) }

  /** The rows a query may still return. */
  ghost predicate Eligible(x: Item, table: set<Item>, f: Filter) { x in table && Matches(x, f) && Beyond(x.key, f) }

  /** Rows are identified by their key, and no identifier is empty. */
  ghost predicate Keyed(table: set<Item>) {
    && (forall x, y :: x in table && y in table && x.key == y.key ==> x == y)
    && (forall x :: x in table ==> x.key.id != "")
  }

  /** The repository's promise: the first `limit` eligible rows, in order. */
  ghost predicate IsListing(rows: seq<Item>, table: set<Item>, f: Filter) {
    && Keyed(table) && Ascending(rows) && |rows| <= f.limit
    && (forall i :: 0 <= i < |rows| ==> Eligible(rows[i], table, f))
    && (forall x :: Eligible(x, table, f) && x !in rows ==>
          |rows| == f.limit && forall i :: 0 <= i < |rows| ==> Precedes(rows[i].key, x.key))
  }

  /** Newest first, larger identifiers first among equals; by name if one is given; live rows unless a state is given. */
  lemma ListingsExactly(rows: seq<Item>, table: set<Item>, f: Filter)
    requires IsListing(rows, table, f)
    ensures forall i, j :: 0 <= i < j < |rows| ==>
              rows[i].key.createdAt > rows[j].key.createdAt
              || (rows[i].key.createdAt == rows[j].key.createdAt && Less(rows[j].key.id, rows[i].key.id))
    ensures forall i :: 0 <= i < |rows| ==>
              && rows[i] in table && (f.name != "" ==> rows[i].name == f.name)
              && (if f.state == "" then rows[i].state != "deleted" else rows[i].state == f.state)
              && (f.afterID != "" ==>
                    f.afterCreatedAt > rows[i].key.createdAt
                    || (f.afterCreatedAt == rows[i].key.createdAt && Less(rows[i].key.id, f.afterID)))
  {
    forall i | 0 <= i < |rows| ensures Eligible(rows[i], table, f) {}
  }

  // -------- the page cutters --------

  /** A page: the items, and the key to continue from. */
  datatype Page = Page(items: seq<Item>, next: Option<Key>)

  /** The first `size` rows, continuing after the last of them when there are more. */
  function Cutting(rows: seq<Item>, size: nat): Page
    requires size >= 1
  {
    if |rows| <= size then Page(rows, None) else Page(rows[..size], Some(rows[size - 1].key))
  }

  /** The loop cutter of the VPC list. */
  method CutByLoop(rows: seq<Item>, size: nat) returns (page: Page)
    requires size >= 1
    ensures page == Cutting(rows, size)
  {
    var items, next := [], None;
    for index := 0 to |rows|
      invariant index <= size && items == rows[..index] && next == None
    {
      if index == size {
        next := Some(rows[index - 1].key);
        return Page(items, next);
      }
      items := items + [rows[index]];
    }
    assert rows[..|rows|] == rows;
    page := Page(items, next);
  }

  /** The slice cutter of the load balancer list: `limit` is the size plus one. */
  function Slicing(rows: seq<Item>, limit: nat): Page
    requires limit >= 2
  {
    if |rows| == limit then Page(rows[..limit - 1], Some(rows[limit - 2].key)) else Page(rows, None)
  }

  method CutBySlice(rows: seq<Item>, limit: nat) returns (page: Page)
    requires limit >= 2
    ensures page == Slicing(rows, limit)
    ensures page.next.Some? <==> |rows| == limit
    ensures page.next.Some? ==> page.items + [rows[limit - 1]] == rows && page.next.value == page.items[|page.items| - 1].key
    ensures page.next.None? ==> page.items == rows
  {
    var kept, next := rows, None;
    if |rows| == limit {
      kept := kept[..|kept| - 1];
      next := Some(kept[|kept| - 1].key);
    }
    page := Page(kept, next);
  }

  /** The two cutters agree exactly on what the repository may return; given more rows than were asked
      for, the slice cutter would silently end the listing. */
  lemma CuttersAgree(rows: seq<Item>, size: nat)
    requires size >= 1
    ensures Cutting(rows, size) == Slicing(rows, size + 1) <==> |rows| <= size + 1
  {
  }

  // -------- following cursors --------

  function From(f: Filter, from: Option<Key>): Filter {
    if from.None? then f.(afterID := "") else f.(afterID := from.value.id, afterCreatedAt := from.value.createdAt)
  }

  /** One query: the table at that moment and the rows it returned. */
  datatype Visit = Visit(table: set<Item>, rows: seq<Item>)

  /** A client that follows cursors until a page has none; every query may see another table. */
  ghost predicate Traversal(visits: seq<Visit>, f: Filter, from: Option<Key>)
    requires f.limit >= 2
    decreases |visits|
  {
    && |visits| > 0 && IsListing(visits[0].rows, visits[0].table, From(f, from))
    && var next := Cutting(visits[0].rows, f.limit - 1).next;
       if next.None? then |visits| == 1 else Traversal(visits[1..], f, next)
  }

  /** All items the client received, page after page. */
  function Received(visits: seq<Visit>, size: nat): seq<Item>
    requires size >= 1
  {
    if |visits| == 0 then [] else Cutting(visits[0].rows, size).items + Received(visits[1..], size)
  }

  predicate AllAfter(items: seq<Item>, from: Option<Key>) {
    from.Some? ==> forall i :: 0 <= i < |items| ==> Precedes(from.value, items[i].key)
  }

  /** What one page contributes, and what it leaves for the pages after it. */
  lemma PageFacts(v: Visit, f: Filter, from: Option<Key>)
    requires f.limit >= 2 && IsListing(v.rows, v.table, From(f, from)) && (from.Some? ==> from.value.id != "")
    ensures var page := Cutting(v.rows, f.limit - 1);
            && Ascending(page.items) && AllAfter(page.items, from)
            && (page.next.Some? ==>
                  && page.next.value.id != "" && |page.items| == f.limit - 1
                  && page.items[|page.items| - 1].key == page.next.value
                  && (from.Some? ==> Precedes(from.value, page.next.value)))
  {
  }

  lemma {:induction false} ReceivedAscends(visits: seq<Visit>, f: Filter, from: Option<Key>)
    requires f.limit >= 2 && Traversal(visits, f, from) && (from.Some? ==> from.value.id != "")
    ensures Ascending(Received(visits, f.limit - 1)) && AllAfter(Received(visits, f.limit - 1), from)
    decreases |visits|
  {
    var page := Cutting(visits[0].rows, f.limit - 1);
    var rest := Received(visits[1..], f.limit - 1);
    PageFacts(visits[0], f, from);
    if page.next.None? {
      assert visits[1..] == [];
      assert Received(visits, f.limit - 1) == page.items;
    } else {
      ReceivedAscends(visits[1..], f, page.next);
      PagesJoin(page.items, rest, page.next.value, from);
    }
  }

  /** A page followed by items that all come after its last one. */
  lemma PagesJoin(items: seq<Item>, rest: seq<Item>, last: Key, from: Option<Key>)
    requires Ascending(items) && Ascending(rest) && AllAfter(items, from) && AllAfter(rest, Some(last))
    requires |items| > 0 && items[|items| - 1].key == last && (from.Some? ==> Precedes(from.value, last))
    ensures Ascending(items + rest) && AllAfter(items + rest, from)
  {
    var all := items + rest;
    forall i, j | 0 <= i < j < |all| ensures Precedes(all[i].key, all[j].key) {
      if i < |items| <= j {
        assert Precedes(last, rest[j - |items|].key);
        if i < |items| - 1 { PrecedesIsStrictTotalOrder(items[i].key, last, all[j].key); }
      }
    }
    if from.Some? {
      forall j | 0 <= j < |all| ensures Precedes(from.value, all[j].key) {
        if j >= |items| { PrecedesIsStrictTotalOrder(from.value, last, rest[j - |items|].key); }
      }
    }
  }

  /** The key belongs to a matching row in every table the client saw. */
  ghost predicate AlwaysListed(k: Key, visits: seq<Visit>, f: Filter) {
    forall v :: 0 <= v < |visits| ==> exists x :: x in visits[v].table && x.key == k && Matches(x, f)
  }

  lemma PageMisses(v: Visit, f: Filter, from: Option<Key>, x: Item)
    requires f.limit >= 2 && IsListing(v.rows, v.table, From(f, from))
    requires Eligible(x, v.table, From(f, from)) && x !in Cutting(v.rows, f.limit - 1).items
    ensures var page := Cutting(v.rows, f.limit - 1);
            page.next.Some? && Precedes(page.next.value, x.key)
  {
    var page := Cutting(v.rows, f.limit - 1);
    if x in v.rows {
      var i :| 0 <= i < |v.rows| && v.rows[i] == x;
      forall n | 0 <= n < |page.items| ensures v.rows[n] != x { assert page.items[n] == v.rows[n]; }
    }
  }

  lemma {:induction false} ReceivedIsComplete(visits: seq<Visit>, f: Filter, from: Option<Key>, k: Key) returns (i: nat)
    requires f.limit >= 2 && Traversal(visits, f, from) && (from.Some? ==> from.value.id != "")
    requires AlwaysListed(k, visits, f) && (from.Some? ==> Precedes(from.value, k))
    ensures i < |Received(visits, f.limit - 1)| && Received(visits, f.limit - 1)[i].key == k
    decreases |visits|
  {
    var page := Cutting(visits[0].rows, f.limit - 1);
    PageFacts(visits[0], f, from);
    var x :| x in visits[0].table && x.key == k && Matches(x, f);
    if x in page.items {
      i :| 0 <= i < |page.items| && page.items[i] == x;
    } else {
      PageMisses(visits[0], f, from, x);
      forall v | 0 <= v < |visits[1..]| ensures exists y :: y in visits[1..][v].table && y.key == k && Matches(y, f) {
        assert visits[1..][v] == visits[v + 1];
      }
      var j := ReceivedIsComplete(visits[1..], f, page.next, k);
      i := |page.items| + j;
    }
  }

  /** What was received is in order, holds no key twice, and holds this key if it was listed throughout. */
  ghost predicate Exact(visits: seq<Visit>, f: Filter, k: Key)
    requires f.limit >= 2
  {
    var all := Received(visits, f.limit - 1);
    && Ascending(all)
    && (forall i, j :: 0 <= i < j < |all| ==> all[i].key != all[j].key)
    && (AlwaysListed(k, visits, f) ==> exists i :: 0 <= i < |all| && all[i].key == k)
  }

  /** Following cursors over a table that changes arbitrarily between pages: keys strictly ascend, so
      no row comes twice, and every row that matched all along comes exactly once. */
  lemma TraversalIsExact(visits: seq<Visit>, f: Filter, k: Key)
    requires f.limit >= 2 && Traversal(visits, f, None)
    ensures Exact(visits, f, k)
  {
    ReceivedAscends(visits, f, None);
    var all := Received(visits, f.limit - 1);
    forall i, j | 0 <= i < j < |all| ensures all[i].key != all[j].key {
      PrecedesIsStrictTotalOrder(all[i].key, all[j].key, all[j].key);
    }
    if AlwaysListed(k, visits, f) { var i := ReceivedIsComplete(visits, f, None, k); }
  }

  // -------- a table that does not change --------

  ghost function Remaining(table: set<Item>, f: Filter, from: Option<Key>): set<Item> {
    set x | x in table && Eligible(x, table, From(f, from))
  }

  ghost function Elements(rows: seq<Item>): set<Item> { set x | x in rows }

  lemma {:induction false} AscendingIsDistinct(rows: seq<Item>)
    requires Ascending(rows)
    ensures |Elements(rows)| == |rows|
  {
    if |rows| > 0 {
      var last := rows[|rows| - 1];
      var rest := rows[..|rows| - 1];
      AscendingIsDistinct(rest);
      forall i | 0 <= i < |rest| ensures rest[i] != last { PrecedesIsStrictTotalOrder(rest[i].key, last.key, last.key); }
      assert Elements(rows) == Elements(rest) + {last};
    }
  }

  /** What remains after a page is what remained before it, less the page. */
  lemma NextRemaining(v: Visit, f: Filter, from: Option<Key>)
    requires f.limit >= 2 && IsListing(v.rows, v.table, From(f, from)) && (from.Some? ==> from.value.id != "")
    requires Cutting(v.rows, f.limit - 1).next.Some?
    ensures var page := Cutting(v.rows, f.limit - 1);
            && Remaining(v.table, f, page.next) == Remaining(v.table, f, from) - Elements(page.items)
            && Elements(page.items) <= Remaining(v.table, f, from)
  {
    var page := Cutting(v.rows, f.limit - 1);
    var last := page.next.value;
    PageFacts(v, f, from);
    forall x | x in v.table ensures x in Remaining(v.table, f, page.next) <==> x in Remaining(v.table, f, from) && x !in page.items {
      if x in Remaining(v.table, f, page.next) {
        if from.Some? { PrecedesIsStrictTotalOrder(from.value, last, x.key); }
        forall i | 0 <= i < |page.items| ensures page.items[i] != x {
          PrecedesIsStrictTotalOrder(page.items[i].key, last, x.key);
          PrecedesIsStrictTotalOrder(last, x.key, last);
        }
      } else if x in Remaining(v.table, f, from) && x !in page.items {
        PageMisses(v, f, from, x);
      }
    }
  }

  lemma LastPageTakesAll(v: Visit, f: Filter, from: Option<Key>)
    requires f.limit >= 2 && IsListing(v.rows, v.table, From(f, from)) && Cutting(v.rows, f.limit - 1).next.None?
    ensures Elements(v.rows) == Remaining(v.table, f, from)
  {
    forall x | x in Remaining(v.table, f, from) ensures x in v.rows {}
  }

  /** How many pages a count of rows makes: a page at least, then one per full page before the last. */
  function PageCount(n: nat, size: nat): nat
    requires size >= 1
  {
    if n <= size then 1 else 1 + PageCount(n - size, size)
  }

  /** A page and the listing of what it leaves make the listing of what there was. */
  lemma PageAndRest(v: Visit, f: Filter, from: Option<Key>, rest: seq<Item>)
    requires f.limit >= 2 && IsListing(v.rows, v.table, From(f, from)) && (from.Some? ==> from.value.id != "")
    requires Cutting(v.rows, f.limit - 1).next.Some?
    requires Elements(rest) == Remaining(v.table, f, Cutting(v.rows, f.limit - 1).next)
    ensures Elements(Cutting(v.rows, f.limit - 1).items + rest) == Remaining(v.table, f, from)
    ensures |Remaining(v.table, f, from)| > f.limit - 1
    ensures |Remaining(v.table, f, Cutting(v.rows, f.limit - 1).next)| == |Remaining(v.table, f, from)| - (f.limit - 1)
  {
    var page := Cutting(v.rows, f.limit - 1);
    PageFacts(v, f, from);
    NextRemaining(v, f, from);
    AscendingIsDistinct(page.items);
    PageLeavesMore(v, f, from);
    Partition(Remaining(v.table, f, from), Elements(page.items));
    ElementsJoin(page.items, rest);
  }

  lemma Partition(a: set<Item>, b: set<Item>)
    requires b <= a
    ensures b + (a - b) == a && |a - b| == |a| - |b|
  {
  }

  lemma ElementsJoin(a: seq<Item>, b: seq<Item>)
    ensures Elements(a + b) == Elements(a) + Elements(b)
  {
  }

  /** On an unchanging table the pages of a finished traversal are exactly the matching rows in order. */
  lemma {:induction false} StaticTraversalIsTheListing(visits: seq<Visit>, f: Filter, from: Option<Key>, table: set<Item>)
    requires f.limit >= 2 && Traversal(visits, f, from) && (from.Some? ==> from.value.id != "")
    requires forall v :: 0 <= v < |visits| ==> visits[v].table == table
    ensures Ascending(Received(visits, f.limit - 1))
    ensures Elements(Received(visits, f.limit - 1)) == Remaining(table, f, from)
    ensures |Received(visits, f.limit - 1)| == |Remaining(table, f, from)|
    ensures |visits| == PageCount(|Remaining(table, f, from)|, f.limit - 1)
    decreases |visits|
  {
    var size := f.limit - 1;
    var page := Cutting(visits[0].rows, size);
    ReceivedAscends(visits, f, from);
    AscendingIsDistinct(Received(visits, size));
    if page.next.None? {
      assert visits[1..] == [];
      assert Received(visits, size) == visits[0].rows;
      LastPageTakesAll(visits[0], f, from);
    } else {
      PageFacts(visits[0], f, from);
      StaticTraversalIsTheListing(visits[1..], f, page.next, table);
      PageAndRest(visits[0], f, from, Received(visits[1..], size));
    }
  }

  lemma PageLeavesMore(v: Visit, f: Filter, from: Option<Key>)
    requires f.limit >= 2 && IsListing(v.rows, v.table, From(f, from)) && |v.rows| == f.limit
    ensures |Remaining(v.table, f, from)| >= f.limit
  {
    AscendingIsDistinct(v.rows);
    assert Elements(v.rows) <= Remaining(v.table, f, from);
    SubsetCount(Elements(v.rows), Remaining(v.table, f, from));
  }

  lemma SubsetCount(a: set<Item>, b: set<Item>)
    requires a <= b
    ensures |a| <= |b|
  {
    assert b == a + (b - a);
  }
}
