/** Paging backwards over a collection that does not change retraces the pages seen forwards. */
module KeysetRoundTrip {
  import opened Options
  import opened Documents
  import opened CursorPagination
  import opened Pagination
  import opened KeysetSeek
  import opened KeysetTraversal
  import opened KeysetPages

  /** The first row of the stretch of l[m]'s kind that ends at m. */
  function Floor(f: SortField, l: seq<Doc>, m: nat): (lo: nat)
    requires m < |l|
    ensures lo <= m
    decreases m
  {
    if m == 0 || !SameKind(f, l[m], l[m - 1]) then m else Floor(f, l, m - 1)
  }

  lemma {:induction false} FloorStretch(f: SortField, l: seq<Doc>, m: nat)
    requires m < |l|
    ensures var lo := Floor(f, l, m);
      && (forall j :: lo <= j <= m ==> SameKind(f, l[m], l[j]))
      && (lo > 0 ==> !SameKind(f, l[m], l[lo - 1]))
    decreases m
  {
    if m > 0 && SameKind(f, l[m], l[m - 1]) { FloorStretch(f, l, m - 1); }
  }

  /** Read backwards, the stretch that ends at m begins there. */
  lemma {:induction false} FloorIsFlippedEnd(f: SortField, o: Order, l: seq<Doc>, m: nat)
    requires Strict(f, o, l) && m < |l|
    ensures KindEnd(f, Reversed(l), |l| - 1 - m) == |l| - Floor(f, l, m)
  {
    var r, i, lo := Reversed(l), |l| - 1 - m, Floor(f, l, m);
    FloorStretch(f, l, m);
    var e := KindEnd(f, r, i);
    assert e < |l| ==> r[e] == l[|l| - 1 - e];
    assert lo > 0 ==> r[|l| - lo] == l[lo - 1];
  }

  /** There are only two kinds: the stretch begins the listing, or right after the leading kind. */
  lemma {:induction false} FloorMeaning(f: SortField, o: Order, l: seq<Doc>, m: nat)
    requires Strict(f, o, l) && m < |l|
    ensures Floor(f, l, m) == if m < KindEnd(f, l, 0) then 0 else KindEnd(f, l, 0)
  {
    var lo, e := Floor(f, l, m), KindEnd(f, l, 0);
    FloorStretch(f, l, m);
    assert SameKind(f, l[0], l[e - 1]);
    if m >= e {
      KindsAreContiguous(f, o, l, 0, m);
      if lo > e { KindsAreContiguous(f, o, l, 0, lo - 1); }
    } else {
      var before := if lo > 0 then lo - 1 else 0;
      assert SameKind(f, l[0], l[m]) && SameKind(f, l[0], l[before]);
    }
  }

  lemma ReversedStretch(l: seq<Doc>, lo: nat, m: nat)
    requires lo <= m < |l|
    ensures Reversed(l)[|l| - m..|l| - lo] == Reversed(l[lo..][..m - lo])
  {
  }

  lemma {:induction false} SeekForwardIn(rows: seq<Doc>, base: Filter, f: SortField, o: Order, l: seq<Doc>, k: nat,
      q: Filter)
    requires DistinctIds(rows) && l == Listing(rows, base, f, o) && k < |l|
    requires q == MergeFilter(base, BuildCursorFilter(CursorOf(l[k], f), f, o, Forward))
    ensures Listing(rows, q, f, o) == l[k + 1..KindEnd(f, l, k)]
  {
    SeekForward(rows, base, f, o, k);
  }

  lemma {:induction false} FlippedStretch(f: SortField, o: Order, l: seq<Doc>, m: nat, lo: nat)
    requires Strict(f, o, l) && m < |l| && lo == Floor(f, l, m)
    ensures Reversed(l)[|l| - m..KindEnd(f, Reversed(l), |l| - 1 - m)] == Reversed(l[lo..][..m - lo])
  {
    FloorIsFlippedEnd(f, o, l, m);
    ReversedStretch(l, lo, m);
  }

  /** A backward request from the m-th listed row finds the rows of its kind before it, nearest first. */
  lemma {:induction false} SeekBackward(rows: seq<Doc>, w: Walk, l: seq<Doc>, m: nat, lo: nat, q: Filter)
    requires DistinctIds(rows) && l == Listing(rows, w.base, w.f, w.o) && m < |l| && lo == Floor(w.f, l, m)
    requires q == MergeFilter(w.base, BuildCursorFilter(CursorOf(l[m], w.f), w.f, w.o, Backward))
    ensures Listing(rows, q, w.f, BuildSort(w.o, Backward)) == Reversed(l[lo..][..m - lo])
  {
    var back, r, k := BuildSort(w.o, Backward), Reversed(l), |l| - 1 - m;
    assert r == Listing(rows, w.base, w.f, back) by { FlippedListing(rows, w.base, w.f, w.o); }
    assert q == MergeFilter(w.base, BuildCursorFilter(CursorOf(r[k], w.f), w.f, back, Forward)) by {
      BackwardIsFlippedForward(CursorOf(l[m], w.f), w.f, w.o);
    }
    assert Listing(rows, q, w.f, back) == r[k + 1..KindEnd(w.f, r, k)] by {
      SeekForwardIn(rows, w.base, w.f, back, r, k, q);
    }
    assert Strict(w.f, w.o, l) by { ListingIsSorted(rows, w.base, w.f, w.o); }
    FlippedStretch(w.f, w.o, l, m, lo);
  }

  /** The page of up to `n` rows that ends right before the m-th. */
  predicate IsPageBefore(r: Response, f: SortField, l: seq<Doc>, n: nat, m: nat)
    requires 0 < m < |l| && n > 0
  {
    var lo := if m > n then m - n else 0;
    && r.data == l[lo..m]
    && r.hasNext
    && r.hasPrevious == (m > n)
    && r.nextCursor == TokenAt(Some(l[m - 1]), f)
    && r.prevCursor == (if m > n then TokenAt(Some(l[lo]), f) else None)
  }

  lemma NearestRows(l: seq<Doc>, n: nat, m: nat)
    requires m < |l|
    ensures var fetched := Slice(Reversed(l[..m]), 0, n + 1);
      && (|fetched| > n <==> m > n)
      && (m > n ==> Reversed(fetched[..n]) == l[m - n..m])
      && (m <= n ==> Reversed(fetched) == l[0..m])
  {
  }

  lemma CutBackward(fetched: seq<Doc>, f: SortField, l: seq<Doc>, n: nat, m: nat, total: Option<int>)
    requires 0 < m < |l| && 1 <= n <= MAX_LIMIT
    requires |fetched| > n <==> m > n
    requires m > n ==> Reversed(fetched[..n]) == l[m - n..m]
    requires m <= n ==> Reversed(fetched) == l[0..m]
    ensures var page := Assemble(fetched, f, n, Backward, true, false);
      IsPageBefore(CursorResponse(page.nodes, page.pageInfo, total, n), f, l, n, m)
  {
  }

  lemma CutBefore(t: seq<Doc>, f: SortField, n: nat, m: nat, total: Option<int>)
    requires 0 < m < |t| && 1 <= n <= MAX_LIMIT
    ensures var page := Assemble(Slice(Reversed(t[..m]), 0, n + 1), f, n, Backward, true, false);
      IsPageBefore(CursorResponse(page.nodes, page.pageInfo, total, n), f, t, n, m)
  {
    NearestRows(t, n, m);
    CutBackward(Slice(Reversed(t[..m]), 0, n + 1), f, t, n, m, total);
  }

  lemma BackwardRequest(rows: seq<Doc>, w: Walk, d: Doc, s: seq<Doc>, q: Filter)
    requires q == MergeFilter(w.base, BuildCursorFilter(CursorOf(d, w.f), w.f, w.o, Backward))
    requires s == Listing(rows, q, w.f, BuildSort(w.o, Backward))
    ensures var n := w.ToPlan().n;
      var page := Assemble(Slice(s, 0, n + 1), w.f, n, Backward, true, false);
      Request(rows, w, 0, None, TokenAt(Some(d), w.f))
        == Ok(CursorResponse(page.nodes, page.pageInfo, Total(w.base, None, None), n))
  {
  }

  lemma PageBefore(rows: seq<Doc>, w: Walk, d: Doc, t: seq<Doc>, m: nat, q: Filter) returns (r: Response)
    requires 0 < m < |t| && q == MergeFilter(w.base, BuildCursorFilter(CursorOf(d, w.f), w.f, w.o, Backward))
    requires Listing(rows, q, w.f, BuildSort(w.o, Backward)) == Reversed(t[..m])
    ensures Request(rows, w, 0, None, TokenAt(Some(d), w.f)) == Ok(r) && IsPageBefore(r, w.f, t, w.ToPlan().n, m)
  {
    BackwardRequest(rows, w, d, Reversed(t[..m]), q);
    CutBefore(t, w.f, w.ToPlan().n, m, Total(w.base, None, None));
    r := Request(rows, w, 0, None, TokenAt(Some(d), w.f)).value;
  }

  function BackQuery(w: Walk, d: Doc): Filter {
    MergeFilter(w.base, BuildCursorFilter(CursorOf(d, w.f), w.f, w.o, Backward))
  }

  /** Seeking backwards from the m-th listed row finds the rows from `lo` up to it, nearest first. */
  predicate SeeksBackAt(rows: seq<Doc>, w: Walk, l: seq<Doc>, m: nat, lo: nat)
    requires lo <= m < |l|
  {
    Listing(rows, BackQuery(w, l[m]), w.f, BuildSort(w.o, Backward)) == Reversed(l[lo..][..m - lo])
  }

  /** Seeking backwards from any listed row finds the rows of its kind before it. */
  ghost predicate SeeksBack(rows: seq<Doc>, w: Walk, l: seq<Doc>) {
    forall m: nat, lo: nat {:trigger SeeksBackAt(rows, w, l, m, lo)} :: m < |l| && lo == Floor(w.f, l, m) ==>
      SeeksBackAt(rows, w, l, m, lo)
  }

  lemma {:induction false} ListingSeeksBack(rows: seq<Doc>, w: Walk, l: seq<Doc>)
    requires DistinctIds(rows) && l == Listing(rows, w.base, w.f, w.o)
    ensures SeeksBack(rows, w, l)
  {
    forall m: nat, lo: nat | m < |l| && lo == Floor(w.f, l, m)
      ensures SeeksBackAt(rows, w, l, m, lo)
    {
      SeekBackward(rows, w, l, m, lo, BackQuery(w, l[m]));
    }
  }

  /** Answers a client's request for the page before a cursor. */
  type BackServer = Option<Token> -> Result<Response, PageError>

  function FixedBackServer(rows: seq<Doc>, w: Walk): BackServer {
    before => Request(rows, w, 0, None, before)
  }

  /** The answer to going back from the m-th row, of whose kind the rows from `lo` are, is the page before it. */
  predicate AnswersBack(ask: BackServer, f: SortField, l: seq<Doc>, n: nat, m: nat, lo: nat)
    requires n > 0 && lo < m < |l|
  {
    var r := ask(TokenAt(Some(l[m]), f));
    r.Ok? && IsPageBefore(r.value, f, l[lo..], n, m - lo)
  }

  /** A backward request from the m-th listed row answers with the page before it, among the rows of its kind. */
  lemma {:induction false} BackwardPage(rows: seq<Doc>, w: Walk, l: seq<Doc>, m: nat, lo: nat)
    requires lo < m < |l| && SeeksBackAt(rows, w, l, m, lo)
    ensures AnswersBack(FixedBackServer(rows, w), w.f, l, w.ToPlan().n, m, lo)
  {
    var r := PageBefore(rows, w, l[m], l[lo..], m - lo, BackQuery(w, l[m]));
  }

  /** The leading kind ends on the first page, and the other kind follows. */
  predicate KindEndsOnFirstPage(f: SortField, l: seq<Doc>, n: nat) {
    l != [] && KindEnd(f, l, 0) < |l| && KindEnd(f, l, 0) <= n
  }

  /** Where page j + 1 starts, and how far back the rows of its kind go. */
  lemma {:induction false} LaterPageStart(f: SortField, o: Order, l: seq<Doc>, n: nat, j: nat, r: Response,
      next: Response)
    requires Strict(f, o, l) && n > 0 && r.hasNext && !(j == 0 && l != [] && n == KindEnd(f, l, 0))
    requires var end := Reach(f, l, n);
      IsPageNumber(f, l, end, n, j, r) && IsPageNumber(f, l, end, n, j + 1, next)
    ensures var m := Start(j, n) + n;
      && m < Reach(f, l, n) && next.prevCursor == TokenAt(Some(l[m]), f)
      && Floor(f, l, m) == (if KindEndsOnFirstPage(f, l, n) then KindEnd(f, l, 0) else 0)
      && Floor(f, l, m) <= n && Floor(f, l, m) < m
  {
    var m := Start(j, n) + n;
    assert Start(j + 1, n) == m && (j > 0 ==> Start(j, n) > 0);
    FloorMeaning(f, o, l, m);
  }

  /** When the first page is exactly the leading kind, the second page is empty and has no cursor to go back with. */
  lemma {:induction false} EmptySecondPage(f: SortField, l: seq<Doc>, n: nat, next: Response)
    requires l != [] && n == KindEnd(f, l, 0) < |l| && IsPageNumber(f, l, Reach(f, l, n), n, 1, next)
    ensures next.prevCursor.None? && next.data == []
  {
  }

  /** `back` says of page j all that `r` says, but perhaps for its rows. */
  predicate SameFlags(back: Response, r: Response, j: nat) {
    back.hasNext && r.hasNext && back.hasPrevious == r.hasPrevious == (j > 0) && back.nextCursor == r.nextCursor
  }

  /** Page j starts at row `m`, the page after it at `m + n`, of whose kind the rows from `lo` are. */
  predicate Between(f: SortField, l: seq<Doc>, end: nat, n: nat, j: nat, m: nat, r: Response, lo: nat, back: Response) {
    && Fits(l, end, n) && IsPage(r, f, l, end, n, m) && r.hasNext
    && n > 0 && lo <= n && lo < m + n < end && (if j > 0 then m >= n else m == 0)
    && IsPageBefore(back, f, l[lo..], n, m + n - lo)
  }

  // ----- theorem -------------------------------------------------------------

  /** `back` is `r` again: the same rows in the same order, the same flags and the same continuation cursors. */
  predicate IsAgain(back: Response, r: Response, j: nat) {
    SameFlags(back, r, j) && back.data == r.data && back.prevCursor == r.prevCursor
  }

  lemma AgainExactlyWhen(f: SortField, l: seq<Doc>, end: nat, n: nat, j: nat, m: nat, r: Response, lo: nat,
      back: Response)
    requires Between(f, l, end, n, j, m, r, lo, back) && (j > 0 ==> lo < m)
    ensures IsAgain(back, r, j) <==> j > 0 || lo == 0
  {
  }

  ghost predicate ServesBack(ask: BackServer, f: SortField, l: seq<Doc>, n: nat)
    requires n > 0
  {
    forall m: nat, lo: nat {:trigger AnswersBack(ask, f, l, n, m, lo)} :: m < |l| && lo == Floor(f, l, m) < m ==>
      AnswersBack(ask, f, l, n, m, lo)
  }

  lemma {:induction false} FixedBackServerServes(rows: seq<Doc>, w: Walk, l: seq<Doc>)
    requires SeeksBack(rows, w, l)
    ensures ServesBack(FixedBackServer(rows, w), w.f, l, w.ToPlan().n)
  {
    forall m: nat, lo: nat | m < |l| && lo == Floor(w.f, l, m) < m
      ensures AnswersBack(FixedBackServer(rows, w), w.f, l, w.ToPlan().n, m, lo)
    {
      assert SeeksBackAt(rows, w, l, m, lo);
      BackwardPage(rows, w, l, m, lo);
    }
  }

  /** Asking for the page before `next` answers with `r` again. */
  predicate GoesBack(ask: BackServer, j: nat, r: Response, next: Response) {
    var back := ask(next.prevCursor);
    next.prevCursor.Some? && back.Ok? && IsAgain(back.value, r, j)
  }

  lemma {:induction false} BackAnswer(ask: BackServer, f: SortField, l: seq<Doc>, n: nat, m: nat, lo: nat)
    requires n > 0 && ServesBack(ask, f, l, n) && m < |l| && lo == Floor(f, l, m) < m
    ensures var back := ask(TokenAt(Some(l[m]), f)); back.Ok? && IsPageBefore(back.value, f, l[lo..], n, m - lo)
  {
    assert AnswersBack(ask, f, l, n, m, lo);
  }

  lemma {:induction false} BetweenHolds(f: SortField, l: seq<Doc>, end: nat, n: nat, j: nat, r: Response, lo: nat,
      back: Response)
    requires n > 0 && Fits(l, end, n) && IsPageNumber(f, l, end, n, j, r) && r.hasNext
    requires Start(j, n) + n < end && lo <= n && lo < Start(j, n) + n
    requires IsPageBefore(back, f, l[lo..], n, Start(j, n) + n - lo)
    ensures Between(f, l, end, n, j, Start(j, n), r, lo, back)
  {
    assert j > 0 ==> Start(j, n) >= n;
  }

  lemma {:induction false} BetweenIsAgainExactlyWhen(f: SortField, l: seq<Doc>, n: nat, j: nat, r: Response, lo: nat,
      back: Response)
    requires Between(f, l, Reach(f, l, n), n, j, Start(j, n), r, lo, back)
    requires lo == if KindEndsOnFirstPage(f, l, n) then KindEnd(f, l, 0) else 0
    ensures IsAgain(back, r, j) <==> !(j == 0 && KindEndsOnFirstPage(f, l, n))
  {
    AgainExactlyWhen(f, l, Reach(f, l, n), n, j, Start(j, n), r, lo, back);
  }

  lemma {:induction false} AgainFrom(f: SortField, l: seq<Doc>, n: nat, j: nat, r: Response, lo: nat, back: Response)
    requires n > 0 && IsPageNumber(f, l, Reach(f, l, n), n, j, r) && r.hasNext
    requires Start(j, n) + n < Reach(f, l, n) && lo <= n && lo < Start(j, n) + n
    requires lo == if KindEndsOnFirstPage(f, l, n) then KindEnd(f, l, 0) else 0
    requires IsPageBefore(back, f, l[lo..], n, Start(j, n) + n - lo)
    ensures IsAgain(back, r, j) <==> !(j == 0 && KindEndsOnFirstPage(f, l, n))
  {
    BetweenHolds(f, l, Reach(f, l, n), n, j, r, lo, back);
    BetweenIsAgainExactlyWhen(f, l, n, j, r, lo, back);
  }

  lemma {:induction false} PagesGoBack(ask: BackServer, f: SortField, o: Order, l: seq<Doc>, n: nat, j: nat,
                                       r: Response, next: Response)
    requires n > 0 && ServesBack(ask, f, l, n) && Strict(f, o, l) && r.hasNext
    requires !(j == 0 && l != [] && n == KindEnd(f, l, 0))
    requires IsPageNumber(f, l, Reach(f, l, n), n, j, r) && IsPageNumber(f, l, Reach(f, l, n), n, j + 1, next)
    ensures GoesBack(ask, j, r, next) <==> !(j == 0 && KindEndsOnFirstPage(f, l, n))
  {
    var m := Start(j, n) + n;
    LaterPageStart(f, o, l, n, j, r, next);
    FromRow(ask, f, l, n, j, m, Floor(f, l, m), r, next);
  }

  lemma {:induction false} FromRow(ask: BackServer, f: SortField, l: seq<Doc>, n: nat, j: nat, m: nat, lo: nat,
                                   r: Response, next: Response)
    requires n > 0 && ServesBack(ask, f, l, n) && IsPageNumber(f, l, Reach(f, l, n), n, j, r) && r.hasNext
    requires m == Start(j, n) + n < Reach(f, l, n) && lo == Floor(f, l, m) < m && lo <= n
    requires lo == if KindEndsOnFirstPage(f, l, n) then KindEnd(f, l, 0) else 0
    requires next.prevCursor == TokenAt(Some(l[m]), f)
    ensures GoesBack(ask, j, r, next) <==> !(j == 0 && KindEndsOnFirstPage(f, l, n))
  {
    var back := ask(next.prevCursor);
    assert back.Ok? && IsPageBefore(back.value, f, l[lo..], n, m - lo) by { BackAnswer(ask, f, l, n, m, lo); }
    assert IsAgain(back.value, r, j) <==> !(j == 0 && KindEndsOnFirstPage(f, l, n)) by {
      AgainFrom(f, l, n, j, r, lo, back.value);
    }
  }

  /** Forward and backward travel undo each other: going back from page j + 1 returns page j, if and only if it is not
      the first page of a listing whose leading kind of sort value ends on that page with the other kind following. */
  lemma {:induction false} BackUndoesForwardExactlyWhen(rows: seq<Doc>, w: Walk, k: nat, j: nat)
    requires DistinctIds(rows) && j + 1 < |FixedPages(rows, w, k)|
    ensures GoesBack(FixedBackServer(rows, w), j, FixedPages(rows, w, k)[j], FixedPages(rows, w, k)[j + 1]) <==>
      !(j == 0 && KindEndsOnFirstPage(w.f, Listing(rows, w.base, w.f, w.o), w.ToPlan().n))
  {
    FixedPage(rows, w, k, j);
    FixedPage(rows, w, k, j + 1);
    ListingIsSorted(rows, w.base, w.f, w.o);
    ListingSeeksBack(rows, w, Listing(rows, w.base, w.f, w.o));
    FixedBackServerServes(rows, w, Listing(rows, w.base, w.f, w.o));
    PagesMayGoBack(FixedBackServer(rows, w), w.f, w.o, Listing(rows, w.base, w.f, w.o), w.ToPlan().n, j,
                   FixedPages(rows, w, k)[j], FixedPages(rows, w, k)[j + 1]);
  }

  lemma {:induction false} PagesMayGoBack(ask: BackServer, f: SortField, o: Order, l: seq<Doc>, n: nat, j: nat,
                                          r: Response, next: Response)
    requires n > 0 && ServesBack(ask, f, l, n) && Strict(f, o, l) && r.hasNext
    requires IsPageNumber(f, l, Reach(f, l, n), n, j, r) && IsPageNumber(f, l, Reach(f, l, n), n, j + 1, next)
    ensures GoesBack(ask, j, r, next) <==> !(j == 0 && KindEndsOnFirstPage(f, l, n))
  {
    if j == 0 && l != [] && n == KindEnd(f, l, 0) {
      assert n < |l|;
      EmptySecondPage(f, l, n, next);
    } else {
      PagesGoBack(ask, f, o, l, n, j, r, next);
    }
  }
}
