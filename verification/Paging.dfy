/** Keyset paging by (timestamp, id), newest first, as requests and forwards are
    listed, and the client that follows `next_before_id` from page to page. */
module Paging {
  import opened Text

  /** The sort key of a row; the id names the row. */
  datatype Key = Key(at: int, id: Uuid)

  /** `ORDER BY at DESC, id DESC` puts `a` before `b`. */
  predicate Above(a: Key, b: Key) {
    a.at > b.at || (a.at == b.at && a.id > b.id)
  }

  ghost predicate Descending(q: seq<Key>) {
    forall i, j :: 0 <= i < j < |q| ==> Above(q[i], q[j])
  }

  /** Ids are primary keys. */
  ghost predicate UniqueIds(keys: set<Key>) {
    forall a, b :: a in keys && b in keys && a.id == b.id ==> a == b
  }

  /** What a page query selects from: the eligible rows, those past the cursor when
      `before` names a row of the table, all of them when it names none. */
  ghost function PastCursor(all: set<Key>, eligible: set<Key>, before: Option<Uuid>): set<Key> {
    set k | k in eligible && (forall c :: c in all && before == Some(c.id) ==> Above(c, k))
  }

  /** `page` is the first `limit` of `keys` in listing order. */
  ghost predicate IsPage(page: seq<Key>, keys: set<Key>, limit: nat) {
    && Descending(page)
    && |page| <= limit
    && (forall k :: k in page ==> k in keys)
    && (|page| < limit ==> forall k :: k in keys ==> k in page)
    && (forall k, p :: k in keys && k !in page && p in page ==> Above(p, k))
  }

  /** A query has one answer. */
  lemma PageUnique(p: seq<Key>, q: seq<Key>, keys: set<Key>, limit: nat)
    requires IsPage(p, keys, limit) && IsPage(q, keys, limit)
    ensures p == q
  {
    PrefixEqual(p, q, keys, limit, if |p| <= |q| then |p| else |q|);
    PageNotShorter(p, q, keys, limit);
    PageNotShorter(q, p, keys, limit);
  }

  lemma PageNotShorter(p: seq<Key>, q: seq<Key>, keys: set<Key>, limit: nat)
    requires IsPage(p, keys, limit) && IsPage(q, keys, limit)
    ensures |p| >= |q|
  {
    PrefixEqual(p, q, keys, limit, if |p| <= |q| then |p| else |q|);
    if q != [] {
      var i := if |p| < |q| then |p| else |q| - 1;
      assert q[i] in q;
    }
  }

  lemma {:induction false} PrefixEqual(p: seq<Key>, q: seq<Key>, keys: set<Key>, limit: nat, n: nat)
    requires IsPage(p, keys, limit) && IsPage(q, keys, limit) && n <= |p| && n <= |q|
    ensures forall i :: 0 <= i < n ==> p[i] == q[i]
  {
    if n > 0 {
      PrefixEqual(p, q, keys, limit, n - 1);
      NextNotAbove(p, q, keys, limit, n - 1);
      NextNotAbove(q, p, keys, limit, n - 1);
    }
  }

  lemma NextNotAbove(p: seq<Key>, q: seq<Key>, keys: set<Key>, limit: nat, n: nat)
    requires IsPage(p, keys, limit) && IsPage(q, keys, limit) && n < |p| && n < |q|
    requires forall i :: 0 <= i < n ==> p[i] == q[i]
    ensures p[n] == q[n] || Above(q[n], p[n])
  {
    assert p[n] in p && q[n] in q;
  }

  method Highest(keys: set<Key>) returns (m: Key)
    requires keys != {}
    ensures m in keys && forall k :: k in keys && k != m ==> Above(m, k)
  {
    m :| m in keys;
    var rest := keys - {m};
    while rest != {}
      invariant m in keys && rest <= keys
      invariant forall k :: k in keys && k !in rest && k != m ==> Above(m, k)
      decreases |rest|
    {
      var k :| k in rest;
      rest := rest - {k};
      if Above(k, m) {
        m := k;
      }
    }
  }

  /** Newest first, and by falling id among rows of one moment. */
  predicate NewestFirst(q: seq<Key>) {
    forall i, j :: 0 <= i < j < |q| ==> q[i].at > q[j].at || (q[i].at == q[j].at && q[i].id > q[j].id)
  }

  /** `ORDER BY at DESC, id DESC LIMIT limit`. */
  method Select(keys: set<Key>, limit: nat) returns (page: seq<Key>)
    ensures IsPage(page, keys, limit)
  {
    page := [];
    var rest := keys;
    while |page| < limit && rest != {}
      invariant |page| <= limit && rest <= keys && Descending(page)
      invariant forall k :: k in page <==> k in keys && k !in rest
      invariant forall k, p :: k in rest && p in page ==> Above(p, k)
      decreases |rest|
    {
      var k := Highest(rest);
      page := page + [k];
      rest := rest - {k};
    }
  }

  /** `list_by_endpoint`: `all` are the keys of the whole table, `eligible` those of
      the rows that match the endpoint and the filter. */
  method ListPage(all: set<Key>, eligible: set<Key>, before: Option<Uuid>, limit: nat) returns (page: seq<Key>)
    requires UniqueIds(all)
    ensures IsPage(page, PastCursor(all, eligible, before), limit) && NewestFirst(page)
    ensures forall k, c :: k in page && c in all && before == Some(c.id) ==> c.at > k.at || (c.at == k.at && c.id > k.id)
  {
    var found := set c | c in all && before == Some(c.id);
    if found != {} {
      var cursor :| cursor in found;
      var past := set k | k in eligible && Above(cursor, k);
      assert past == PastCursor(all, eligible, before);
      page := Select(past, limit);
    } else {
      assert forall c :: c in all && before == Some(c.id) ==> c in found;
      assert eligible == PastCursor(all, eligible, before);
      page := Select(eligible, limit);
    }
  }

  /** The route's `next_before_id`. */
  function NextBefore(page: seq<Key>, limit: nat): Option<Uuid>
    requires limit >= 1
  {
    if |page| == limit then Some(page[|page| - 1].id) else None
  }

  /** The client that asks for pages until none is announced gets every eligible row
      exactly once, newest first; it always stops. */
  method Enumerate(all: set<Key>, eligible: set<Key>, limit: nat) returns (listed: seq<Key>)
    requires UniqueIds(all) && eligible <= all && limit >= 1
    ensures NewestFirst(listed) && forall k :: k in listed <==> k in eligible
  {
    listed := [];
    var before, more := None, true;
    ghost var rest := eligible;
    assert rest == PastCursor(all, eligible, before);
    while more
      invariant Descending(listed) && rest <= eligible
      invariant forall k :: k in listed <==> k in eligible && k !in rest
      invariant forall k, p :: k in rest && p in listed ==> Above(p, k)
      invariant if more then rest == PastCursor(all, eligible, before) else rest == {}
      decreases more, rest
    {
      var page := ListPage(all, eligible, before, limit);
      before := NextBefore(page, limit);
      more := before.Some?;
      listed := listed + page;
      ghost var next := set k | k in rest && k !in page;
      if more {
        var last := page[|page| - 1];
        assert last in page && last in rest && last !in next;
        assert next == PastCursor(all, eligible, before) by {
          PastLast(all, eligible, rest, page, last);
        }
      }
      rest := next;
    }
  }

  /** Past the last row of a page lies what the page left over. */
  lemma PastLast(all: set<Key>, eligible: set<Key>, rest: set<Key>, page: seq<Key>, last: Key)
    requires UniqueIds(all) && eligible <= all && rest <= eligible
    requires page != [] && last == page[|page| - 1] && IsPage(page, rest, |page|)
    requires forall k :: k in eligible && k !in rest ==> Above(k, last)
    ensures (set k | k in rest && k !in page) == PastCursor(all, eligible, Some(last.id))
  {
    forall k | k in PastCursor(all, eligible, Some(last.id)) ensures k in rest && k !in page {
      assert last in page && last in rest && last in all;
      assert Above(last, k);
    }
    forall k | k in rest && k !in page ensures k in PastCursor(all, eligible, Some(last.id)) {
      assert last in page;
    }
  }

  // -------------------------------------------------- paging a changing table

  /** The table at the moment one page was fetched. */
  datatype View = View(all: set<Key>, eligible: set<Key>)

  /** Rows are inserted, never deleted, and keep their keys; which of them a filter lets
      through may change from fetch to fetch. */
  ghost predicate Growing(views: seq<View>) {
    && (forall i :: 0 <= i < |views| ==> UniqueIds(views[i].all) && views[i].eligible <= views[i].all)
    && (forall i, j :: 0 <= i <= j < |views| ==> views[i].all <= views[j].all)
  }

  /** The rows that pass the filter at every fetch. */
  ghost predicate Throughout(views: seq<View>, rows: set<Key>) {
    forall i :: 0 <= i < |views| ==> rows <= views[i].eligible
  }

  /** The cursor the client sends for page `i`. */
  ghost function CursorOf(pages: seq<seq<Key>>, i: nat, limit: nat): Option<Uuid>
    requires i <= |pages| && limit >= 1
  {
    if i == 0 then None else NextBefore(pages[i - 1], limit)
  }

  /** A client's walk: page `i` was fetched from `views[i]`, every page but the last
      announced a next one, and the last did not. */
  ghost predicate IsWalk(views: seq<View>, pages: seq<seq<Key>>, limit: nat)
    requires limit >= 1
  {
    && |views| == |pages| > 0
    && (forall i :: 0 <= i < |pages| ==>
          IsPage(pages[i], PastCursor(views[i].all, views[i].eligible, CursorOf(pages, i, limit)), limit))
    && (forall i :: 0 <= i < |pages| ==> (NextBefore(pages[i], limit).Some? <==> i < |pages| - 1))
  }

  ghost function Flatten(pages: seq<seq<Key>>): seq<Key> {
    if pages == [] then [] else Flatten(pages[..|pages| - 1]) + pages[|pages| - 1]
  }

  /** After `n` pages: what is listed is in order, and what of `rows` is not listed lies
      past the last listed row, with more pages announced. */
  ghost predicate WalkedTo(views: seq<View>, pages: seq<seq<Key>>, n: nat, limit: nat, rows: set<Key>)
    requires 0 < n <= |pages| && n <= |views|
  {
    Covers(Flatten(pages[..n]), pages[n - 1], rows, views[n - 1].all, limit)
  }

  ghost predicate Covers(listed: seq<Key>, page: seq<Key>, rows: set<Key>, all: set<Key>, limit: nat) {
    && Descending(listed)
    && (forall k :: k in listed ==> k in all)
    && (forall k :: k in rows && k !in listed ==> page != [] && |page| == limit && Above(page[|page| - 1], k))
    && (page != [] ==> listed != [] && listed[|listed| - 1] == page[|page| - 1])
  }

  lemma DescendingConcat(a: seq<Key>, b: seq<Key>, last: Key)
    requires Descending(a) && Descending(b) && a != [] && last == a[|a| - 1]
    requires forall k :: k in b ==> Above(last, k)
    ensures Descending(a + b)
  {
    forall i, j | 0 <= i < |a| && 0 <= j < |b| ensures Above(a[i], b[j]) {
      assert b[j] in b;
      assert i < |a| - 1 ==> Above(a[i], last);
    }
  }

  /** The page fetched from `view` after `last`: it lies past `last`, and so does
      everything the view holds past `last` and the page leaves over. */
  lemma NextPage(view: View, page: seq<Key>, last: Key, limit: nat)
    requires UniqueIds(view.all) && last in view.all
    requires IsPage(page, PastCursor(view.all, view.eligible, Some(last.id)), limit)
    ensures forall k :: k in page ==> k in view.eligible && Above(last, k)
    ensures forall k, p :: k in view.eligible && Above(last, k) && k !in page && p in page ==> Above(p, k)
    ensures |page| < limit ==> forall k :: k in view.eligible && Above(last, k) ==> k in page
  {
    var past := PastCursor(view.all, view.eligible, Some(last.id));
    forall k | k in view.eligible && Above(last, k) ensures k in past {
      assert forall c :: c in view.all && c.id == last.id ==> c == last;
    }
    forall k | k in page ensures k in view.eligible && Above(last, k) {
      assert k in past;
    }
  }

  /** One more page: `shown` was the last page, `page` comes from the view after its last row. */
  lemma CoversMore(listed: seq<Key>, shown: seq<Key>, page: seq<Key>, rows: set<Key>, before: set<Key>, view: View, limit: nat)
    requires limit >= 1 && |shown| == limit && Covers(listed, shown, rows, before, limit)
    requires UniqueIds(view.all) && view.eligible <= view.all && rows <= view.eligible && before <= view.all
    requires IsPage(page, PastCursor(view.all, view.eligible, NextBefore(shown, limit)), limit)
    ensures Covers(listed + page, page, rows, view.all, limit)
  {
    var last := shown[|shown| - 1];
    assert last in listed && last in view.all;
    NextPage(view, page, last, limit);
    DescendingConcat(listed, page, last);
    assert page != [] ==> page[|page| - 1] in page;
  }

  lemma FlattenPush(pages: seq<seq<Key>>, n: nat)
    requires n < |pages|
    ensures Flatten(pages[..n + 1]) == Flatten(pages[..n]) + pages[n]
  {
    assert pages[..n + 1][..n] == pages[..n];
  }

  lemma WalkPage(views: seq<View>, pages: seq<seq<Key>>, n: nat, limit: nat)
    requires limit >= 1 && IsWalk(views, pages, limit) && 0 < n < |pages|
    ensures |pages[n - 1]| == limit
    ensures IsPage(pages[n], PastCursor(views[n].all, views[n].eligible, NextBefore(pages[n - 1], limit)), limit)
  {
    assert NextBefore(pages[n - 1], limit).Some?;
    assert CursorOf(pages, n, limit) == NextBefore(pages[n - 1], limit);
  }

  lemma WalkStep(views: seq<View>, pages: seq<seq<Key>>, n: nat, limit: nat, rows: set<Key>)
    requires limit >= 1 && Growing(views) && Throughout(views, rows) && IsWalk(views, pages, limit) && 0 < n < |pages|
    requires WalkedTo(views, pages, n, limit, rows)
    ensures WalkedTo(views, pages, n + 1, limit, rows)
  {
    FlattenPush(pages, n);
    WalkPage(views, pages, n, limit);
    CoversMore(Flatten(pages[..n]), pages[n - 1], pages[n], rows, views[n - 1].all, views[n], limit);
  }

  lemma OnePage(pages: seq<seq<Key>>)
    requires pages != []
    ensures Flatten(pages[..1]) == pages[0]
  {
    assert pages[..1][..0] == [];
  }

  lemma FirstCovers(page: seq<Key>, rows: set<Key>, view: View, limit: nat)
    requires IsPage(page, PastCursor(view.all, view.eligible, None), limit)
    requires rows <= view.eligible <= view.all && limit >= 1
    ensures Covers(page, page, rows, view.all, limit)
  {
    assert PastCursor(view.all, view.eligible, None) == view.eligible;
    assert page != [] ==> page[|page| - 1] in page;
  }

  lemma WalkStarts(views: seq<View>, pages: seq<seq<Key>>, limit: nat, rows: set<Key>)
    requires limit >= 1 && Growing(views) && Throughout(views, rows) && IsWalk(views, pages, limit)
    ensures WalkedTo(views, pages, 1, limit, rows)
  {
    OnePage(pages);
    assert CursorOf(pages, 0, limit) == None;
    FirstCovers(pages[0], rows, views[0], limit);
  }

  lemma {:induction false} WalkReaches(views: seq<View>, pages: seq<seq<Key>>, n: nat, limit: nat, rows: set<Key>)
    requires limit >= 1 && Growing(views) && Throughout(views, rows) && IsWalk(views, pages, limit) && 0 < n <= |pages|
    ensures WalkedTo(views, pages, n, limit, rows)
  {
    if n == 1 {
      WalkStarts(views, pages, limit, rows);
    } else {
      WalkReaches(views, pages, n - 1, limit, rows);
      WalkStep(views, pages, n - 1, limit, rows);
    }
  }

  /** The row passed the filter at one of the first `n` fetches. */
  ghost predicate Matched(views: seq<View>, n: nat, k: Key) {
    exists i :: 0 <= i < n <= |views| && k in views[i].eligible
  }

  /** A walk lists only rows that passed the filter when their page was fetched. */
  lemma {:induction false} ListedMatched(views: seq<View>, pages: seq<seq<Key>>, n: nat, limit: nat, k: Key)
    requires limit >= 1 && IsWalk(views, pages, limit) && 0 < n <= |pages| && k in Flatten(pages[..n])
    ensures Matched(views, n, k)
  {
    if n == 1 {
      OnePage(pages);
      assert k in views[0].eligible;
    } else {
      FlattenPush(pages, n - 1);
      if k in pages[n - 1] {
        assert k in views[n - 1].eligible;
      } else {
        ListedMatched(views, pages, n - 1, limit, k);
        var i :| 0 <= i < n - 1 && k in views[i].eligible;
        assert k in views[i].eligible;
      }
    }
  }

  /** A walk through a growing table, under a filter whose rows come and go, lists no row
      twice, misses no row that passes the filter throughout, and lists none that never
      passed it. */
  lemma WalkComplete(views: seq<View>, pages: seq<seq<Key>>, limit: nat, rows: set<Key>)
    requires limit >= 1 && Growing(views) && Throughout(views, rows) && IsWalk(views, pages, limit)
    ensures NewestFirst(Flatten(pages))
    ensures forall k :: k in rows ==> k in Flatten(pages)
    ensures forall k :: k in Flatten(pages) ==> k in views[|views| - 1].all && Matched(views, |views|, k)
  {
    WalkReaches(views, pages, |pages|, limit, rows);
    assert pages[..|pages|] == pages;
    assert NextBefore(pages[|pages| - 1], limit).None?;
    forall k | k in Flatten(pages) ensures Matched(views, |views|, k) {
      ListedMatched(views, pages, |pages|, limit, k);
    }
  }
}
