/**
 Cursor paging over a project's history: pages come in order of creation time, the cursor compares ids.
 Following it reads the whole history exactly when every page end separates the ids.
 */
module ScrollPaging {
  import opened Base

  const MAX_I64: int := 0x7fff_ffff_ffff_ffff

  /** `body` stands for the columns paging does not look at. */
  datatype Version = Version(id: int, body: nat)

  datatype Page = Page(items: seq<Version>, nextCursor: Option<int>, hasMore: bool) | Raised

  /** The matching rows, newest first; ids are positive and unique. */
  ghost predicate History(h: seq<Version>) {
    && (forall i :: 0 <= i < |h| ==> 0 < h[i].id < MAX_I64)
    && (forall i, j :: 0 <= i < j < |h| ==> h[i].id != h[j].id)
  }

  /** A cursor of zero, or beyond the column's range, asks from the top. */
  function Bound(cursor: Option<int>): int {
    if cursor.None? then MAX_I64
    else if cursor.value > MAX_I64 || cursor.value == 0 then MAX_I64
    else cursor.value
  }

  /** WHERE id < bound, in the order of the history. */
  function Query(h: seq<Version>, bound: int): seq<Version> {
    if h == [] then []
    else (if h[0].id < bound then [h[0]] else []) + Query(h[1..], bound)
  }

  lemma {:induction false} QueryFinds(h: seq<Version>, bound: int)
    ensures forall v :: v in Query(h, bound) ==> v in h && v.id < bound
  {
    if h == [] {
    } else {
      QueryFinds(h[1..], bound);
    }
  }

  method GetProjectScrollVersion(h: seq<Version>, cursor: Option<int>, limit: nat) returns (page: Page)
    requires History(h)
    ensures var bound := if cursor.None? || cursor.value == 0 || cursor.value > MAX_I64 then MAX_I64 else cursor.value;
            var q := Query(h, bound);
            if |q| <= limit then page == Page(q, None, false)
            else if limit == 0 then page.Raised?
            else page == Page(q[..limit], Some(q[limit - 1].id), true)
  {
    var versions := Query(h, Bound(cursor));
    versions := if |versions| <= limit + 1 then versions else versions[..limit + 1];
    var hasMore := |versions| > limit;
    var items := if hasMore then versions[..limit] else versions;
    var nextCursor := None;
    if hasMore {
      if items == [] { return Raised; }
      nextCursor := Some(items[|items| - 1].id);
    }
    page := Page(items, nextCursor, hasMore);
  }

  lemma {:induction false} QueryAppend(a: seq<Version>, b: seq<Version>, bound: int)
    ensures Query(a + b, bound) == Query(a, bound) + Query(b, bound)
  {
    if a == [] {
      assert a + b == b;
    } else {
      QueryAppend(a[1..], b, bound);
      assert (a + b)[1..] == a[1..] + b && (a + b)[0] == a[0];
      Associate(if a[0].id < bound then [a[0]] else [], Query(a[1..], bound), Query(b, bound));
    }
  }

  lemma {:induction false} QueryAll(h: seq<Version>, bound: int)
    requires forall i :: 0 <= i < |h| ==> h[i].id < bound
    ensures Query(h, bound) == h
  {
    if h == [] {
    } else {
      QueryAll(h[1..], bound);
    }
  }

  lemma {:induction false} QueryNone(h: seq<Version>, bound: int)
    requires forall i :: 0 <= i < |h| ==> h[i].id >= bound
    ensures Query(h, bound) == []
  {
    if h == [] {
    } else {
      QueryNone(h[1..], bound);
    }
  }

  /** The next page asks for strictly fewer rows. */
  lemma {:induction false} QueryShrinks(h: seq<Version>, bound: int, lower: int)
    requires lower < bound
    ensures |Query(h, lower)| <= |Query(h, bound)|
    ensures (exists v :: v in h && v.id == lower) ==> |Query(h, lower)| < |Query(h, bound)|
  {
    if h == [] {
    } else {
      QueryShrinks(h[1..], bound, lower);
      if exists v :: v in h && v.id == lower {
        var v :| v in h && v.id == lower;
        assert v == h[0] || v in h[1..];
      }
    }
  }

  /** All pages from a cursor on, as a client that follows nextCursor gets them. */
  function ScrollFrom(h: seq<Version>, bound: int, limit: nat): seq<Version>
    requires limit >= 1
    decreases |Query(h, bound)|
  {
    var q := Query(h, bound);
    if |q| <= limit then q
    else
      QueryFinds(h, bound);
      assert q[limit - 1] in q;
      QueryShrinks(h, bound, q[limit - 1].id);
      q[..limit] + ScrollFrom(h, q[limit - 1].id, limit)
  }

  /** The cursor of a page that has more is asked with as it stands. */
  lemma CursorIsBound(h: seq<Version>, bound: int, limit: nat)
    requires History(h) && limit >= 1 && |Query(h, bound)| > limit
    ensures var id := Query(h, bound)[limit - 1].id; Bound(Some(id)) == id
  {
    QueryFinds(h, bound);
    assert Query(h, bound)[limit - 1] in Query(h, bound);
  }

  /** A page that has more is followed by what its cursor asks for, which is less. */
  lemma PageThenRest(h: seq<Version>, bound: int, limit: nat)
    requires History(h) && limit >= 1
    ensures var q := Query(h, bound);
            if |q| <= limit then ScrollFrom(h, bound, limit) == q
            else ScrollFrom(h, bound, limit) == q[..limit] + ScrollFrom(h, Bound(Some(q[limit - 1].id)), limit)
                 && |Query(h, Bound(Some(q[limit - 1].id)))| < |q|
  {
    var q := Query(h, bound);
    if |q| > limit {
      CursorIsBound(h, bound, limit);
      QueryFinds(h, bound);
      assert q[limit - 1] in q;
      QueryShrinks(h, bound, q[limit - 1].id);
    }
  }

  /** A client that follows nextCursor to the last page; a page size of zero is refused when there is anything. */
  method Scroll(h: seq<Version>, limit: nat) returns (all: Option<seq<Version>>)
    requires History(h)
    ensures limit >= 1 ==> all == Some(ScrollFrom(h, Bound(None), limit))
    ensures limit == 0 ==> all == if h == [] then Some([]) else None
  {
    QueryAll(h, MAX_I64);
    var page := GetProjectScrollVersion(h, None, limit);
    if page.Raised? { return None; }
    if limit == 0 { return Some(page.items); }
    PageThenRest(h, MAX_I64, limit);
    var read, cursor: Option<int> := page.items, page.nextCursor;
    while cursor.Some?
      invariant ScrollFrom(h, MAX_I64, limit)
             == if cursor.Some? then read + ScrollFrom(h, Bound(cursor), limit) else read
      decreases if cursor.Some? then |Query(h, Bound(cursor))| + 1 else 0
    {
      page := GetProjectScrollVersion(h, cursor, limit);
      PageThenRest(h, Bound(cursor), limit);
      if page.nextCursor.Some? { Associate(read, page.items, ScrollFrom(h, Bound(page.nextCursor), limit)); }
      read, cursor := read + page.items, page.nextCursor;
    }
    all := Some(read);
  }

  lemma {:induction false} ScrollStays(h: seq<Version>, bound: int, limit: nat)
    requires limit >= 1
    ensures forall v :: v in ScrollFrom(h, bound, limit) ==> v.id < bound
    ensures Query(h, bound) != [] ==>
              ScrollFrom(h, bound, limit) != [] && ScrollFrom(h, bound, limit)[0] == Query(h, bound)[0]
    decreases |Query(h, bound)|
  {
    var q := Query(h, bound);
    QueryFinds(h, bound);
    if |q| <= limit {
    } else {
      assert q[limit - 1] in q;
      QueryShrinks(h, bound, q[limit - 1].id);
      ScrollStays(h, q[limit - 1].id, limit);
    }
  }

  /** From position `i`, every page end has exactly the rows behind it below its id. */
  ghost predicate Separated(h: seq<Version>, i: nat, limit: nat)
    requires i <= |h| && limit >= 1
    decreases |h| - i
  {
    |h| - i <= limit
    || (Splits(h, i + limit) && Separated(h, i + limit, limit))
  }

  /** The rows before position `n` have at least the id of the last of them, the rows after it smaller ones. */
  ghost predicate Splits(h: seq<Version>, n: nat)
    requires 0 < n <= |h|
  {
    && (forall k :: 0 <= k < n ==> h[k].id >= h[n - 1].id)
    && (forall k :: n <= k < |h| ==> h[k].id < h[n - 1].id)
  }

  /** For a history cut in two: the query finds exactly the second part iff it separates the two. */
  lemma QueryIsBackIff(front: seq<Version>, back: seq<Version>, bound: int)
    ensures Query(front + back, bound) == back
            <==> (forall v :: v in front ==> v.id >= bound) && (forall v :: v in back ==> v.id < bound)
  {
    QueryAppend(front, back, bound);
    QueryFinds(front + back, bound);
    if (forall v :: v in front ==> v.id >= bound) && (forall v :: v in back ==> v.id < bound) {
      QueryNone(front, bound);
      QueryAll(back, bound);
    } else if Query(front + back, bound) == back {
      assert forall v :: v in back ==> v in Query(front + back, bound);
      QueryAll(back, bound);
      assert |Query(front, bound)| == 0;
      forall v | v in front ensures v.id >= bound {
        var k :| 0 <= k < |front| && front[k] == v;
        KeptOut(front, bound, k);
      }
    }
  }

  lemma PageEndIff(h: seq<Version>, n: nat)
    requires 0 < n <= |h|
    ensures Query(h, h[n - 1].id) == h[n..] <==> Splits(h, n)
  {
    assert h == h[..n] + h[n..];
    QueryIsBackIff(h[..n], h[n..], h[n - 1].id);
    AllInFront(h, n, h[n - 1].id);
    AllInBack(h, n, h[n - 1].id);
  }

  lemma AllInFront(h: seq<Version>, n: nat, bound: int)
    requires n <= |h|
    ensures (forall v :: v in h[..n] ==> v.id >= bound) <==> (forall k :: 0 <= k < n ==> h[k].id >= bound)
  {
    forall k | 0 <= k < n ensures h[k] in h[..n] { assert h[..n][k] == h[k]; }
  }

  lemma AllInBack(h: seq<Version>, n: nat, bound: int)
    requires n <= |h|
    ensures (forall v :: v in h[n..] ==> v.id < bound) <==> (forall k :: n <= k < |h| ==> h[k].id < bound)
  {
    forall k | n <= k < |h| ensures h[k] in h[n..] { assert h[n..][k - n] == h[k]; }
  }

  lemma {:induction false} KeptOut(h: seq<Version>, bound: int, k: nat)
    requires k < |h| && Query(h, bound) == []
    ensures h[k].id >= bound
  {
    if k <= 0 {
    } else {
      KeptOut(h[1..], bound, k - 1);
    }
  }

  /** Rows are unique, so what starts in the front does not start like the back. */
  lemma FrontIsNotBack(front: seq<Version>, back: seq<Version>, q: seq<Version>)
    requires History(front + back) && (forall v :: v in q ==> v in front) && q != [] && back != []
    ensures q[0] != back[0]
  {
    assert q[0] in q;
    var k :| 0 <= k < |front| && front[k] == q[0];
    assert (front + back)[k] == q[0] && (front + back)[|front|] == back[0];
  }

  /** If the pages from a bound on are the second part, then so was the query. */
  lemma ScrollTellsQuery(front: seq<Version>, back: seq<Version>, bound: int, limit: nat)
    requires History(front + back) && limit >= 1 && ScrollFrom(front + back, bound, limit) == back
    ensures Query(front + back, bound) == back
  {
    ScrollStays(front + back, bound, limit);
    assert forall v :: v in back ==> v.id < bound;
    QueryAppend(front, back, bound);
    QueryAll(back, bound);
    var q := Query(front, bound);
    QueryFinds(front, bound);
    if q != [] && back != [] { FrontIsNotBack(front, back, q); }
  }

  lemma ScrollTellsPageEnd(h: seq<Version>, n: nat, limit: nat)
    requires History(h) && 0 < n <= |h| && limit >= 1
    ensures ScrollFrom(h, h[n - 1].id, limit) == h[n..] ==> Splits(h, n)
  {
    assert h == h[..n] + h[n..];
    if ScrollFrom(h, h[n - 1].id, limit) == h[n..] {
      ScrollTellsQuery(h[..n], h[n..], h[n - 1].id, limit);
      PageEndIff(h, n);
    }
  }

  /** The pages from position `i` on, asked for with `bound`, are the rest of the history. */
  ghost predicate ReadsRest(h: seq<Version>, i: nat, bound: int, limit: nat)
    requires i <= |h| && limit >= 1
  {
    ScrollFrom(h, bound, limit) == h[i..]
  }

  lemma {:induction false} ScrollIff(h: seq<Version>, i: nat, bound: int, limit: nat)
    requires History(h) && i <= |h| && limit >= 1 && Query(h, bound) == h[i..]
    ensures ReadsRest(h, i, bound, limit) <==> Separated(h, i, limit)
    decreases |h| - i
  {
    var n := i + limit;
    if n >= |h| {
      LastPage(h, i, bound, limit);
    } else {
      if Splits(h, n) {
        PageEndIff(h, n);
        ScrollIff(h, n, h[n - 1].id, limit);
      }
      Combine(h, i, n, bound, limit);
    }
  }

  lemma Combine(h: seq<Version>, i: nat, n: nat, bound: int, limit: nat)
    requires History(h) && limit >= 1 && n == i + limit < |h| && Query(h, bound) == h[i..]
    requires Splits(h, n) ==> (ReadsRest(h, n, h[n - 1].id, limit) <==> Separated(h, n, limit))
    ensures ReadsRest(h, i, bound, limit) <==> Separated(h, i, limit)
  {
    FirstPage(h, i, n, bound, limit);
    if ReadsRest(h, n, h[n - 1].id, limit) { ScrollTellsPageEnd(h, n, limit); }
  }

  lemma LastPage(h: seq<Version>, i: nat, bound: int, limit: nat)
    requires i <= |h| <= i + limit && limit >= 1 && Query(h, bound) == h[i..]
    ensures ReadsRest(h, i, bound, limit)
  {
  }

  lemma FirstPage(h: seq<Version>, i: nat, n: nat, bound: int, limit: nat)
    requires limit >= 1 && n == i + limit < |h| && Query(h, bound) == h[i..]
    ensures ReadsRest(h, i, bound, limit) <==> ReadsRest(h, n, h[n - 1].id, limit)
  {
    var id, page := h[n - 1].id, h[i..n];
    assert h[i..][..limit] == page && h[i..][limit - 1].id == id && h[i..] == page + h[n..];
    assert ScrollFrom(h, bound, limit) == page + ScrollFrom(h, id, limit);
    Cancel(page, ScrollFrom(h, id, limit), h[n..]);
  }

  lemma Cancel(a: seq<Version>, b: seq<Version>, c: seq<Version>)
    ensures a + b == a + c <==> b == c
  {
    if a + b == a + c {
      assert b == (a + b)[|a|..] && c == (a + c)[|a|..];
    }
  }

  /** Exactly when every page end separates the ids, following the cursor reads the history once and in order. */
  lemma PagingIsCompleteIff(h: seq<Version>, limit: nat)
    requires History(h) && limit >= 1
    ensures ScrollFrom(h, Bound(None), limit) == h <==> Separated(h, 0, limit)
  {
    QueryAll(h, MAX_I64);
    assert h[0..] == h;
    ScrollIff(h, 0, MAX_I64, limit);
    assert ReadsRest(h, 0, MAX_I64, limit) <==> ScrollFrom(h, MAX_I64, limit) == h;
  }

  lemma {:induction false} NewerHasLargerId(h: seq<Version>, i: nat, limit: nat)
    requires i <= |h| && limit >= 1 && forall k, l :: 0 <= k < l < |h| ==> h[k].id > h[l].id
    ensures Separated(h, i, limit)
    decreases |h| - i
  {
    if |h| - i <= limit {
    } else {
      NewerHasLargerId(h, i + limit, limit);
    }
  }

  /** It is so for every page size when ids and creation times agree. */
  lemma AgreeingOrdersPageCompletely(h: seq<Version>, limit: nat)
    requires History(h) && limit >= 1 && forall k, l :: 0 <= k < l < |h| ==> h[k].id > h[l].id
    ensures ScrollFrom(h, Bound(None), limit) == h
  {
    NewerHasLargerId(h, 0, limit);
    PagingIsCompleteIff(h, limit);
  }
}
