/** A traversal of a collection that does not change: exactly which rows each page holds,
    when the traversal ends, and what it leaves out. */
module KeysetPages {
  import opened Options
  import opened Documents
  import opened CursorPagination
  import opened Pagination
  import opened KeysetSeek
  import opened KeysetTraversal

  /** Nulls and numbers share the sort field, and the leading kind fills the first page. */
  predicate LeadingKindFillsPage(f: SortField, l: seq<Doc>, n: nat) {
    l != [] && n <= KindEnd(f, l, 0) < |l|
  }

  /** How much of the listing a traversal with page size `n` can reach: when the leading kind fills the first page, the
      cursor never leaves that kind. */
  function Reach(f: SortField, l: seq<Doc>, n: nat): (r: nat)
    ensures r <= |l|
  {
    if LeadingKindFillsPage(f, l, n) then KindEnd(f, l, 0) else |l|
  }

  lemma {:induction false} ReachFrom(f: SortField, o: Order, l: seq<Doc>, n: nat, i: nat)
    requires Strict(f, o, l) && 1 <= n <= i + 1 && i < Reach(f, l, n)
    ensures KindEnd(f, l, i) == Reach(f, l, n)
  {
    var e0, e := KindEnd(f, l, 0), KindEnd(f, l, i);
    if i > 0 { KindsAreContiguous(f, o, l, 0, i); }
    if e0 <= i {
      if e < |l| { KindsAreContiguous(f, o, l, 0, e); }
    } else {
      if e < |l| { KindsAreContiguous(f, o, l, 0, e); }
      if e0 < |l| && i < e0 { KindsAreContiguous(f, o, l, i, e0); }
    }
  }

  function Least(a: nat, b: nat): nat { if a < b then a else b }

  /** The reach is the whole listing, or at least one page of it. */
  predicate Fits(l: seq<Doc>, end: nat, n: nat) {
    end <= |l| && (end < |l| ==> n <= end)
  }

  /** Whether the page that starts at the m-th listed row promises another. */
  predicate More(l: seq<Doc>, end: nat, n: nat, m: nat) {
    if m == 0 then |l| > n else m + n < end
  }

  /** The page that starts at the m-th row of the listing `l`, of which the first `end` rows are within reach. */
  predicate IsPage(r: Response, f: SortField, l: seq<Doc>, end: nat, n: nat, m: nat)
    requires Fits(l, end, n)
  {
    var lo, hi := Least(m, end), Least(m + n, end);
    && r.data == l[lo..hi]
    && r.hasNext == More(l, end, n, m)
    && r.hasPrevious == (m > 0)
    && r.nextCursor == (if More(l, end, n, m) && hi > 0 then TokenAt(Some(l[hi - 1]), f) else None)
    && r.prevCursor == (if m > 0 && lo < hi then TokenAt(Some(l[lo]), f) else None)
  }

  /** The row a request for the page at `m` seeks from. */
  function SeekFrom(l: seq<Doc>, m: nat): Option<Doc>
    requires m <= |l|
  {
    if m == 0 then None else Some(l[m - 1])
  }

  lemma FirstPage(f: SortField, l: seq<Doc>, n: nat, r: Response)
    requires n > 0 && Cut(r, l, n, None, f)
    ensures IsPage(r, f, l, Reach(f, l, n), n, 0)
  {
  }

  lemma LaterPage(f: SortField, l: seq<Doc>, end: nat, n: nat, m: nat, r: Response)
    requires n > 0 && Fits(l, end, n) && 0 < m <= end && Cut(r, l[m..end], n, Some(l[m - 1]), f)
    ensures IsPage(r, f, l, end, n, m)
  {
    var s := l[m..end];
    assert s != [] ==> s[0] == l[m];
    assert |s| > n ==> s[n - 1] == l[m + n - 1];
  }

  /** A request from the row before the m-th answers with the page at `m`. */
  lemma PageAtRow(rows: seq<Doc>, w: Walk, m: nat, r: Response)
    requires DistinctIds(rows)
    requires var l, n := Listing(rows, w.base, w.f, w.o), w.ToPlan().n;
      && (m == 0 || n <= m <= Reach(w.f, l, n))
      && Cut(r, Ahead(rows, w, SeekFrom(l, m)), n, SeekFrom(l, m), w.f)
    ensures var l, n := Listing(rows, w.base, w.f, w.o), w.ToPlan().n; IsPage(r, w.f, l, Reach(w.f, l, n), n, m)
  {
    var l, n := Listing(rows, w.base, w.f, w.o), w.ToPlan().n;
    if m == 0 {
      FirstPage(w.f, l, n, r);
    } else {
      ListingIsSorted(rows, w.base, w.f, w.o);
      SeekForward(rows, w.base, w.f, w.o, m - 1);
      ReachFrom(w.f, w.o, l, n, m - 1);
      LaterPage(w.f, l, Reach(w.f, l, n), n, m, r);
    }
  }

  // ----- the whole traversal -------------------------------------------------

  function FixedServer(rows: seq<Doc>, w: Walk): Server {
    (i: nat, next: Option<Token>) => Request(rows, w, i, next, None)
  }

  /** A server whose answer from the row before the m-th is the page at `m`. */
  ghost predicate Serves(ask: Server, f: SortField, l: seq<Doc>, end: nat, n: nat)
    requires Fits(l, end, n)
  {
    forall i: nat, m: nat {:trigger ask(i, TokenAt(SeekFrom(l, m), f))} :: (m == 0 || n <= m <= end) && m <= |l| ==>
      var r := ask(i, TokenAt(SeekFrom(l, m), f));
      r.Ok? && IsPage(r.value, f, l, end, n, m)
  }

  lemma FixedServerServes(rows: seq<Doc>, w: Walk)
    requires DistinctIds(rows)
    ensures var l, n := Listing(rows, w.base, w.f, w.o), w.ToPlan().n;
      Serves(FixedServer(rows, w), w.f, l, Reach(w.f, l, n), n)
  {
    var l, n := Listing(rows, w.base, w.f, w.o), w.ToPlan().n;
    forall i: nat, m: nat | (m == 0 || n <= m <= Reach(w.f, l, n)) && m <= |l|
      ensures var r := FixedServer(rows, w)(i, TokenAt(SeekFrom(l, m), w.f));
        r.Ok? && IsPage(r.value, w.f, l, Reach(w.f, l, n), n, m)
    {
      ForwardPage(rows, w, i, SeekFrom(l, m));
      PageAtRow(rows, w, m, Request(rows, w, i, TokenAt(SeekFrom(l, m), w.f), None).value);
    }
  }

  /** `k * n`, the row the k-th page starts at. */
  function Start(k: nat, n: nat): nat {
    if k == 0 then 0 else Start(k - 1, n) + n
  }

  lemma {:induction false} StartIsProduct(k: nat, n: nat)
    ensures Start(k, n) == k * n
  {
    if k > 0 { StartIsProduct(k - 1, n); }
  }

  /** `good(j, r)` says `r` may be the j-th page. Every answer to the first request is good, and so is the
      answer to the request that follows a good page's cursor, which is there exactly when more is promised. */
  ghost predicate Closed(ask: Server, good: (nat, Response) -> bool) {
    && (forall i: nat :: ask(i, None).Ok? && good(0, ask(i, None).value))
    && (forall j: nat, r :: good(j, r) ==> (r.nextCursor.Some? <==> r.hasNext))
    && (forall i: nat, j: nat, r {:trigger good(j, r), ask(i, r.nextCursor)} :: good(j, r) && r.hasNext ==>
          ask(i, r.nextCursor).Ok? && good(j + 1, ask(i, r.nextCursor).value))
  }

  /** All `k` requests were made, or a page said it was the last. */
  predicate Stopped(pages: seq<Response>, k: nat) {
    |pages| == k || (0 < |pages| < k && !pages[|pages| - 1].hasNext)
  }

  ghost predicate AllGood(pages: seq<Response>, good: (nat, Response) -> bool) {
    forall j: nat {:trigger good(j, pages[j])} :: j < |pages| ==>
      good(j, pages[j]) && (j < |pages| - 1 ==> pages[j].hasNext)
  }

  lemma {:induction false} WalkedPages(ask: Server, good: (nat, Response) -> bool, k: nat)
    requires Closed(ask, good)
    ensures AllGood(Walked(ask, k), good)
    ensures Stopped(Walked(ask, k), k)
  {
    if k > 0 {
      WalkedPages(ask, good, k - 1);
      var pages := Walked(ask, k - 1);
      if pages != [] {
        assert good(|pages| - 1, pages[|pages| - 1]);
      }
      var next := Walked(ask, k);
      forall j: nat | j < |next| ensures good(j, next[j]) && (j < |next| - 1 ==> next[j].hasNext) {
        assert j < |pages| ==> next[j] == pages[j] && good(j, pages[j]);
      }
    }
  }

  /** The j-th page starts `j * n` rows in. */
  predicate IsPageNumber(f: SortField, l: seq<Doc>, end: nat, n: nat, j: nat, r: Response)
    requires Fits(l, end, n)
  {
    IsPage(r, f, l, end, n, Start(j, n)) && (j == 0 || Start(j, n) <= end)
  }

  function PageNumber(f: SortField, l: seq<Doc>, end: nat, n: nat): (nat, Response) -> bool
    requires Fits(l, end, n)
  {
    (j: nat, r: Response) => IsPageNumber(f, l, end, n, j, r)
  }

  lemma {:induction false} NextStart(f: SortField, l: seq<Doc>, end: nat, n: nat, j: nat, r: Response)
    requires Fits(l, end, n) && n > 0 && IsPageNumber(f, l, end, n, j, r)
    ensures r.hasNext ==>
      (n <= Start(j + 1, n) <= end
       && r.nextCursor == TokenAt(SeekFrom(l, Start(j + 1, n)), f) && r.nextCursor.Some?)
    ensures !r.hasNext ==> r.nextCursor == None
  {
  }

  lemma PageNumbersAreClosed(ask: Server, f: SortField, l: seq<Doc>, end: nat, n: nat)
    requires Fits(l, end, n) && Serves(ask, f, l, end, n) && n > 0
    ensures Closed(ask, PageNumber(f, l, end, n))
  {
    var good := PageNumber(f, l, end, n);
    forall i: nat ensures ask(i, None).Ok? && good(0, ask(i, None).value) {
      assert ask(i, TokenAt(SeekFrom(l, 0), f)).Ok?;
    }
    forall j: nat, r | good(j, r) ensures r.nextCursor.Some? <==> r.hasNext {
      NextStart(f, l, end, n, j, r);
    }
    forall i: nat, j: nat, r | good(j, r) && r.hasNext
      ensures ask(i, r.nextCursor).Ok? && good(j + 1, ask(i, r.nextCursor).value)
    {
      NextStart(f, l, end, n, j, r);
      assert ask(i, TokenAt(SeekFrom(l, Start(j + 1, n)), f)).Ok?;
    }
  }

  // ----- theorems ------------------------------------------------------------

  /** The pages of a client that makes up to `k` requests against a collection that does not change. */
  function FixedPages(rows: seq<Doc>, w: Walk, k: nat): seq<Response> {
    Walked(FixedServer(rows, w), k)
  }

  function Within(rows: seq<Doc>, w: Walk): (end: nat)
    ensures Fits(Listing(rows, w.base, w.f, w.o), end, w.ToPlan().n)
  {
    Reach(w.f, Listing(rows, w.base, w.f, w.o), w.ToPlan().n)
  }

  /** The j-th page a fixed collection yields, and whether another follows. */
  lemma FixedPage(rows: seq<Doc>, w: Walk, k: nat, j: nat)
    requires DistinctIds(rows) && j < |FixedPages(rows, w, k)|
    ensures IsPageNumber(w.f, Listing(rows, w.base, w.f, w.o), Within(rows, w), w.ToPlan().n,
      j, FixedPages(rows, w, k)[j])
    ensures j < |FixedPages(rows, w, k)| - 1 ==> FixedPages(rows, w, k)[j].hasNext
  {
    FixedPagesAreGood(rows, w, k);
    assert PageNumber(w.f, Listing(rows, w.base, w.f, w.o), Within(rows, w), w.ToPlan().n)
      (j, FixedPages(rows, w, k)[j]);
  }

  lemma FixedPagesAreGood(rows: seq<Doc>, w: Walk, k: nat)
    requires DistinctIds(rows)
    ensures AllGood(FixedPages(rows, w, k),
      PageNumber(w.f, Listing(rows, w.base, w.f, w.o), Within(rows, w), w.ToPlan().n))
    ensures Stopped(FixedPages(rows, w, k), k)
  {
    FixedServerServes(rows, w);
    PageNumbersAreClosed(FixedServer(rows, w), w.f, Listing(rows, w.base, w.f, w.o), Within(rows, w), w.ToPlan().n);
    WalkedPages(FixedServer(rows, w),
      PageNumber(w.f, Listing(rows, w.base, w.f, w.o), Within(rows, w), w.ToPlan().n), k);
  }

  /** The offset-mode page with the same number, asked with a count query. */
  function OffsetTwin(rows: seq<Doc>, w: Walk, j: nat): Response {
    OffsetPage(ExecutorOver(rows), w.base, w.f, w.o, w.rawLimit, Some(j + 1), None, None, Some(CounterOver(rows)))
  }

  lemma {:induction false} OffsetTwinMeaning(rows: seq<Doc>, w: Walk, j: nat)
    requires DistinctIds(rows)
    ensures var l, n, r := Listing(rows, w.base, w.f, w.o), w.ToPlan().n, OffsetTwin(rows, w, j);
      && r.data == Slice(l, Start(j, n), n)
      && r.hasNext == (Start(j, n) + |r.data| < |l|)
      && r.hasPrevious == (j > 0)
      && r.totalPages == AtLeast(Some(CeilDiv(|l|, n)), 0)
  {
    var n := w.ToPlan().n;
    StartIsProduct(j, n);
    ListingIsSorted(rows, w.base, w.f, w.o);
    assert SkipCount(None, j + 1, n) == Start(j, n);
  }

  /** What the j-th page followed to and the j-th counted skip/limit page have in common. */
  predicate SamePage(cursor: Response, offset: Response) {
    cursor.data == offset.data && cursor.hasNext == offset.hasNext && cursor.hasPrevious == offset.hasPrevious
  }

  /** The page is the last of a leading kind that fills the first page, or lies beyond it. */
  predicate LeadingKindEndsBy(f: SortField, l: seq<Doc>, n: nat, j: nat) {
    LeadingKindFillsPage(f, l, n) && j > 0 && KindEnd(f, l, 0) <= Start(j + 1, n)
  }

  lemma {:induction false} PagesAgreeExactlyWhen(f: SortField, l: seq<Doc>, n: nat, j: nat, cursor: Response,
      offset: Response)
    requires n > 0 && IsPageNumber(f, l, Reach(f, l, n), n, j, cursor)
    requires offset.data == Slice(l, Start(j, n), n) && offset.hasNext == (Start(j, n) + |offset.data| < |l|)
    requires offset.hasPrevious == (j > 0)
    ensures SamePage(cursor, offset) <==> !LeadingKindEndsBy(f, l, n, j)
  {
    var m, end := Start(j, n), Reach(f, l, n);
    assert Start(j + 1, n) == m + n && (m > 0 <==> j > 0);
    assert |cursor.data| == Least(m + n, end) - Least(m, end);
    assert |offset.data| == Least(m + n, |l|) - Least(m, |l|);
  }

  /** The fast form answers what the simple form answers: the j-th page followed to is the j-th counted skip/limit page,
      if and only if it is not where a leading kind that fills the first page ends. */
  lemma {:induction false} CursorPageIsOffsetPageExactlyWhen(rows: seq<Doc>, w: Walk, k: nat, j: nat)
    requires DistinctIds(rows) && j < |FixedPages(rows, w, k)|
    ensures SamePage(FixedPages(rows, w, k)[j], OffsetTwin(rows, w, j)) <==>
      !LeadingKindEndsBy(w.f, Listing(rows, w.base, w.f, w.o), w.ToPlan().n, j)
  {
    FixedPage(rows, w, k, j);
    OffsetTwinMeaning(rows, w, j);
    PagesAgreeExactlyWhen(w.f, Listing(rows, w.base, w.f, w.o), w.ToPlan().n, j,
                          FixedPages(rows, w, k)[j], OffsetTwin(rows, w, j));
  }

  lemma GoodPage(pages: seq<Response>, f: SortField, l: seq<Doc>, end: nat, n: nat, j: nat)
    requires Fits(l, end, n) && AllGood(pages, PageNumber(f, l, end, n)) && j < |pages|
    ensures IsPageNumber(f, l, end, n, j, pages[j])
    ensures j < |pages| - 1 ==> pages[j].hasNext
  {
    assert PageNumber(f, l, end, n)(j, pages[j]);
  }

  /** Where page `j` begins, as far as the traversal reaches. */
  function Reached(end: nat, n: nat): nat -> nat { (j: nat) => Least(Start(j, n), end) }

  ghost predicate Adjoin(pages: seq<Response>, l: seq<Doc>, cut: nat -> nat) {
    forall j: nat {:trigger pages[j]} :: j < |pages| ==>
      cut(j) <= |l| && cut(j + 1) <= |l| && l[..cut(j)] + pages[j].data == l[..cut(j + 1)]
  }

  lemma {:induction false} AdjoiningRows(pages: seq<Response>, l: seq<Doc>, cut: nat -> nat, c: nat)
    requires Adjoin(pages, l, cut) && cut(0) == 0 && c <= |pages|
    ensures cut(c) <= |l| && Collected(pages[..c]) == l[..cut(c)]
  {
    if c > 0 {
      AdjoiningRows(pages, l, cut, c - 1);
      assert pages[..c][..c - 1] == pages[..c - 1] && pages[..c][c - 1] == pages[c - 1];
    }
  }

  /** The rows of the first `c` pages are the listing's first `c * n`, as far as the traversal reaches. */
  lemma {:induction false} RowsOfPages(pages: seq<Response>, f: SortField, l: seq<Doc>, end: nat, n: nat, c: nat)
    requires Fits(l, end, n) && AllGood(pages, PageNumber(f, l, end, n)) && c <= |pages|
    ensures Collected(pages[..c]) == l[..Least(Start(c, n), end)]
  {
    forall j: nat | j < |pages|
      ensures l[..Least(Start(j, n), end)] + pages[j].data == l[..Least(Start(j + 1, n), end)]
    {
      GoodPage(pages, f, l, end, n, j);
      PageAdds(f, l, end, n, j, pages[j]);
    }
    AdjoiningRows(pages, l, Reached(end, n), c);
  }

  lemma PageAdds(f: SortField, l: seq<Doc>, end: nat, n: nat, j: nat, r: Response)
    requires Fits(l, end, n) && IsPageNumber(f, l, end, n, j, r)
    ensures l[..Least(Start(j, n), end)] + r.data == l[..Least(Start(j + 1, n), end)]
  {
  }

  lemma {:induction false} EndedPagesCollect(pages: seq<Response>, f: SortField, l: seq<Doc>, end: nat, n: nat)
    requires Fits(l, end, n) && AllGood(pages, PageNumber(f, l, end, n)) && pages != [] && !pages[|pages| - 1].hasNext
    ensures Collected(pages) == l[..end]
  {
    var c := |pages|;
    RowsOfPages(pages, f, l, end, n, c);
    assert pages[..c] == pages;
    GoodPage(pages, f, l, end, n, c - 1);
    LastPageReaches(f, l, end, n, c - 1, pages[c - 1]);
  }

  lemma {:induction false} LastPageReaches(f: SortField, l: seq<Doc>, end: nat, n: nat, j: nat, r: Response)
    requires Fits(l, end, n) && IsPageNumber(f, l, end, n, j, r) && !r.hasNext
    ensures end <= Start(j + 1, n) && Least(Start(j + 1, n), end) == end
    ensures j == 0 ==> end == |l|
  {
  }

  lemma {:induction false} MorePagesReach(f: SortField, l: seq<Doc>, end: nat, n: nat, j: nat, r: Response)
    requires n > 0 && Fits(l, end, n) && IsPageNumber(f, l, end, n, j, r) && r.hasNext
    ensures Start(j + 1, n) < |l|
    ensures j > 0 ==> Start(j + 1, n) < end
  {
    assert j > 0 ==> Start(j, n) > 0;
  }

  /** A traversal that has ended returned exactly the listed rows within reach, each once and in order. */
  lemma EndedTraversalCollects(rows: seq<Doc>, w: Walk, k: nat)
    requires DistinctIds(rows)
    requires var pages := FixedPages(rows, w, k); pages != [] && !pages[|pages| - 1].hasNext
    ensures var l := Listing(rows, w.base, w.f, w.o);
      Collected(FixedPages(rows, w, k)) == l[..Reach(w.f, l, w.ToPlan().n)]
  {
    FixedPagesAreGood(rows, w, k);
    EndedPagesCollect(FixedPages(rows, w, k), w.f, Listing(rows, w.base, w.f, w.o), Within(rows, w), w.ToPlan().n);
  }

  /** An ended traversal holds the whole sorted, filtered collection if and only if the rows of the leading kind do not
      fill a page while rows of the other kind wait behind them. */
  lemma CompleteExactlyWhen(rows: seq<Doc>, w: Walk, k: nat)
    requires DistinctIds(rows)
    requires var pages := FixedPages(rows, w, k); pages != [] && !pages[|pages| - 1].hasNext
    ensures var l := Listing(rows, w.base, w.f, w.o);
      Collected(FixedPages(rows, w, k)) == l <==> !LeadingKindFillsPage(w.f, l, w.ToPlan().n)
  {
    EndedTraversalCollects(rows, w, k);
  }

  const LOSING_ROWS := [Doc(1, Null, 0), Doc(2, Num(7), 0)]
  const LOSING_WALK := Walk(Everything, ByField, 1, Some(1), (i: nat) => true)

  lemma LosingListing()
    ensures Listing(LOSING_ROWS, Everything, ByField, 1) == LOSING_ROWS
    ensures KindEnd(ByField, LOSING_ROWS, 0) == 1
  {
    var rows := LOSING_ROWS;
    assert !SameKind(ByField, rows[0], rows[1]);
    assert rows[1..] == [Doc(2, Num(7), 0)];
    assert Select(Everything, rows[1..]) == rows[1..];
    assert Select(Everything, rows) == rows;
    assert SortRows(ByField, 1, rows[1..]) == rows[1..];
    assert SortRows(ByField, 1, rows) == rows;
  }

  /** Two rows, one without a sort value, one row a page: the traversal ends having returned the first row alone. */
  lemma {:induction false} NullSortValueLosesRows()
    ensures DistinctIds(LOSING_ROWS) && Listing(LOSING_ROWS, Everything, ByField, 1) == LOSING_ROWS
    ensures var pages := FixedPages(LOSING_ROWS, LOSING_WALK, 2);
      && pages != [] && !pages[|pages| - 1].hasNext
      && Collected(pages) == [LOSING_ROWS[0]]
  {
    LosingListing();
    var l := Listing(LOSING_ROWS, LOSING_WALK.base, LOSING_WALK.f, LOSING_WALK.o);
    assert Reach(ByField, l, 1) == 1 && LOSING_WALK.ToPlan().n == 1;
    SecondPageEnds(LOSING_ROWS, LOSING_WALK, l);
    EndedTraversalCollects(LOSING_ROWS, LOSING_WALK, 2);
    assert l[..1] == [LOSING_ROWS[0]];
  }

  /** When one page is within reach, the traversal has ended after two. */
  lemma {:induction false} SecondPageEnds(rows: seq<Doc>, w: Walk, l: seq<Doc>)
    requires DistinctIds(rows) && l == Listing(rows, w.base, w.f, w.o) && Reach(w.f, l, w.ToPlan().n) <= w.ToPlan().n
    ensures var pages := FixedPages(rows, w, 2); pages != [] && !pages[|pages| - 1].hasNext
  {
    FixedPagesAreGood(rows, w, 2);
    var pages := FixedPages(rows, w, 2);
    if |pages| == 2 { FixedPage(rows, w, 2, 1); }
  }

  function Most(a: nat, b: nat): nat { if a > b then a else b }

  /** How many pages a traversal makes: those of the part within reach, but at least the first, and a second when rows
      beyond it are promised. */
  function PagesToEnd(l: seq<Doc>, end: nat, n: nat): nat
    requires n > 0
  {
    Most(if end < |l| then 2 else 1, Most(0, CeilDiv(end, n)))
  }

  /** With enough requests allowed, the traversal ends after as many pages as offset mode counts, but at least one;
      when a leading kind fills the first page, after as many as that kind takes, but at least two. */
  lemma {:induction false} TraversalEndsAfter(rows: seq<Doc>, w: Walk, k: nat)
    requires DistinctIds(rows)
    ensures var l, n, total := Listing(rows, w.base, w.f, w.o), w.ToPlan().n, OffsetTwin(rows, w, 0).totalPages;
      && total.Some? && total.value >= 0
      && |FixedPages(rows, w, k)| == Least(k, if LeadingKindFillsPage(w.f, l, n) then Most(2, PagesOf(w.f, l, n))
                                              else Most(1, total.value))
  {
    var l, n := Listing(rows, w.base, w.f, w.o), w.ToPlan().n;
    FixedPagesAreGood(rows, w, k);
    OffsetTwinMeaning(rows, w, 0);
    CeilIsLeast(|l|, n);
    CeilIsLeast(Within(rows, w), n);
    CountPages(FixedPages(rows, w, k), w.f, l, Within(rows, w), n, k);
  }

  /** The pages that the leading kind takes. */
  function PagesOf(f: SortField, l: seq<Doc>, n: nat): (p: nat)
    requires n > 0 && l != []
  {
    Most(0, CeilDiv(KindEnd(f, l, 0), n))
  }

  lemma {:induction false} CountPages(pages: seq<Response>, f: SortField, l: seq<Doc>, end: nat, n: nat, k: nat)
    requires n > 0 && Fits(l, end, n) && AllGood(pages, PageNumber(f, l, end, n)) && Stopped(pages, k)
    ensures |pages| == Least(k, PagesToEnd(l, end, n))
  {
    NotTooManyPages(pages, f, l, end, n);
    if |pages| < k { EnoughPages(pages, f, l, end, n); }
  }

  lemma {:induction false} NotTooManyPages(pages: seq<Response>, f: SortField, l: seq<Doc>, end: nat, n: nat)
    requires n > 0 && Fits(l, end, n) && AllGood(pages, PageNumber(f, l, end, n))
    ensures |pages| <= PagesToEnd(l, end, n)
  {
    var c := |pages|;
    if c > 1 {
      GoodPage(pages, f, l, end, n, c - 2);
      MorePagesReach(f, l, end, n, c - 2, pages[c - 2]);
      if c > 2 || end == |l| { StartBelow(c - 1, n, end); }
    }
  }

  lemma {:induction false} EnoughPages(pages: seq<Response>, f: SortField, l: seq<Doc>, end: nat, n: nat)
    requires n > 0 && Fits(l, end, n) && AllGood(pages, PageNumber(f, l, end, n))
    requires pages != [] && !pages[|pages| - 1].hasNext
    ensures |pages| >= PagesToEnd(l, end, n)
  {
    var c := |pages|;
    GoodPage(pages, f, l, end, n, c - 1);
    LastPageReaches(f, l, end, n, c - 1, pages[c - 1]);
    CeilReached(c, n, end);
  }

  /** `CeilDiv(t, n)` pages of `n` hold `t` rows, and one page fewer does not. */
  lemma CeilIsLeast(t: int, n: nat)
    requires n > 0 && t >= 0
    ensures (CeilDiv(t, n) - 1) * n < t <= CeilDiv(t, n) * n && CeilDiv(t, n) >= 0
  {
  }

  lemma {:induction false} StartBelow(c: nat, n: nat, t: int)
    requires n > 0 && t > 0 && Start(c, n) < t
    ensures c < CeilDiv(t, n)
  {
    StartIsProduct(c, n);
    CeilIsLeast(t, n);
    MulOrder(c, CeilDiv(t, n), n);
  }

  lemma {:induction false} CeilReached(c: nat, n: nat, t: int)
    requires n > 0 && t >= 0 && Start(c, n) >= t
    ensures c >= CeilDiv(t, n)
  {
    StartIsProduct(c, n);
    CeilIsLeast(t, n);
    MulOrder(CeilDiv(t, n) - 1, c, n);
  }

  lemma MulOrder(a: int, b: int, n: nat)
    ensures a * n < b * n ==> a < b
  {
  }
}
