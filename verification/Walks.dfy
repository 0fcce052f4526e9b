/**
 Following cursors over a table that does not change ends: walks, finished or not, are no longer than the
 number of pages the rows make, and every walk can be finished.
 */
module Walks {
  import opened Text
  import opened Listing

  /** Pages fetched one after another by following cursors, so far. */
  ghost predicate Walk(visits: seq<Visit>, f: Filter, from: Option<Key>)
    requires f.limit >= 2
    decreases |visits|
  {
    |visits| > 0 ==>
      && IsListing(visits[0].rows, visits[0].table, From(f, from))
      && (|visits| > 1 ==>
            var next := Cutting(visits[0].rows, f.limit - 1).next;
            next.Some? && Walk(visits[1..], f, next))
  }

  predicate AllOf(visits: seq<Visit>, table: set<Item>) { forall i :: 0 <= i < |visits| ==> visits[i].table == table }

  lemma CountAfterPage(v: Visit, f: Filter, from: Option<Key>)
    requires f.limit >= 2 && IsListing(v.rows, v.table, From(f, from)) && (from.Some? ==> from.value.id != "")
    requires Cutting(v.rows, f.limit - 1).next.Some?
    ensures |Remaining(v.table, f, from)| > f.limit - 1
    ensures |Remaining(v.table, f, Cutting(v.rows, f.limit - 1).next)| == |Remaining(v.table, f, from)| - (f.limit - 1)
  {
    var page := Cutting(v.rows, f.limit - 1);
    PageFacts(v, f, from);
    NextRemaining(v, f, from);
    AscendingIsDistinct(page.items);
    PageLeavesMore(v, f, from);
    Partition(Remaining(v.table, f, from), Elements(page.items));
  }

  /** The last page is as long as what remained. */
  lemma CountOfLastPage(v: Visit, f: Filter, from: Option<Key>)
    requires f.limit >= 2 && IsListing(v.rows, v.table, From(f, from)) && Cutting(v.rows, f.limit - 1).next.None?
    ensures |Remaining(v.table, f, from)| <= f.limit - 1
  {
    LastPageTakesAll(v, f, from);
    AscendingIsDistinct(v.rows);
  }

  /** No walk is longer than the pages there are, and it is finished exactly when it is that long. */
  lemma {:induction false} WalkIsBounded(visits: seq<Visit>, f: Filter, from: Option<Key>, table: set<Item>)
    requires f.limit >= 2 && Walk(visits, f, from) && AllOf(visits, table) && (from.Some? ==> from.value.id != "")
    ensures |visits| <= PageCount(|Remaining(table, f, from)|, f.limit - 1)
    ensures |visits| == PageCount(|Remaining(table, f, from)|, f.limit - 1) <==> Traversal(visits, f, from)
    decreases |visits|
  {
    if |visits| > 0 {
      var next := Cutting(visits[0].rows, f.limit - 1).next;
      if next.None? { CountOfLastPage(visits[0], f, from); }
      else {
        CountAfterPage(visits[0], f, from);
        PageFacts(visits[0], f, from);
        WalkIsBounded(visits[1..], f, next, table);
      }
    }
  }

  // -------- every walk can be finished --------

  /** One row comes before all others. */
  lemma {:induction false} FirstOf(rows: set<Item>) returns (first: Item)
    requires rows != {} && forall x, y :: x in rows && y in rows && x.key == y.key ==> x == y
    ensures first in rows && forall x :: x in rows && x != first ==> Precedes(first.key, x.key)
    decreases |rows|
  {
    first :| first in rows;
    var rest := rows - {first};
    if rest != {} {
      var m := FirstOf(rest);
      PrecedesIsStrictTotalOrder(first.key, m.key, m.key);
      if Precedes(m.key, first.key) { first := m; }
      else {
        forall x | x in rest ensures Precedes(first.key, x.key) { PrecedesIsStrictTotalOrder(first.key, m.key, x.key); }
      }
    }
  }

  lemma {:induction false} InOrder(rows: set<Item>) returns (all: seq<Item>)
    requires forall x, y :: x in rows && y in rows && x.key == y.key ==> x == y
    ensures Ascending(all) && Elements(all) == rows
    decreases |rows|
  {
    if rows == {} { all := []; }
    else {
      var first := FirstOf(rows);
      var rest := InOrder(rows - {first});
      all := [first] + rest;
      forall i | 0 <= i < |rest| ensures Precedes(first.key, rest[i].key) { assert rest[i] in Elements(rest); }
    }
  }

  /** Every table has a listing. */
  lemma ListingExists(table: set<Item>, f: Filter) returns (rows: seq<Item>)
    requires Keyed(table)
    ensures IsListing(rows, table, f)
  {
    var all := InOrder(set x | x in table && Eligible(x, table, f));
    rows := if |all| <= f.limit then all else all[..f.limit];
    forall i | 0 <= i < |rows| ensures Eligible(rows[i], table, f) { assert all[i] in Elements(all); }
    forall x | Eligible(x, table, f) && x !in rows
      ensures |rows| == f.limit && forall i :: 0 <= i < |rows| ==> Precedes(rows[i].key, x.key)
    {
      assert x in Elements(all);
      var j :| 0 <= j < |all| && all[j] == x;
    }
  }

  /** From anywhere, following cursors reaches the end. */
  lemma {:induction false} Finish(table: set<Item>, f: Filter, from: Option<Key>) returns (visits: seq<Visit>)
    requires f.limit >= 2 && Keyed(table) && (from.Some? ==> from.value.id != "")
    ensures Traversal(visits, f, from) && AllOf(visits, table)
    decreases |Remaining(table, f, from)|
  {
    var rows := ListingExists(table, From(f, from));
    var v := Visit(table, rows);
    var next := Cutting(rows, f.limit - 1).next;
    visits := [v];
    if next.Some? {
      CountAfterPage(v, f, from);
      PageFacts(v, f, from);
      var more := Finish(table, f, next);
      visits := [v] + more;
      assert visits[1..] == more;
    }
  }

  /** An unfinished walk goes on to a finished one, which is then exactly as long as the pages there are. */
  lemma {:induction false} WalkCanBeFinished(visits: seq<Visit>, f: Filter, from: Option<Key>, table: set<Item>)
    returns (more: seq<Visit>)
    requires f.limit >= 2 && Walk(visits, f, from) && AllOf(visits, table) && Keyed(table) && (from.Some? ==> from.value.id != "")
    ensures Traversal(visits + more, f, from) && AllOf(more, table)
    decreases |visits|
  {
    if |visits| == 0 {
      more := Finish(table, f, from);
      assert visits + more == more;
    } else {
      var next := Cutting(visits[0].rows, f.limit - 1).next;
      if next.None? { more := []; }
      else {
        PageFacts(visits[0], f, from);
        more := WalkCanBeFinished(visits[1..], f, next, table);
      }
      assert (visits + more)[1..] == visits[1..] + more;
    }
  }
}
