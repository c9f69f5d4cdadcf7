/** Following `nextCursor` from the first page on, while the collection may change
    arbitrarily between requests. */
module KeysetTraversal {
  import opened Options
  import opened Documents
  import opened CursorPagination
  import opened Pagination
  import opened KeysetSeek
  import opened KeysetChain

  /** What stays the same from one request of a traversal to the next, and in which of its two parameters the client
      hands the i-th request its cursor: as `cursor`, or as `after`. */
  datatype Walk = Walk(base: Filter, f: SortField, o: Order, rawLimit: RawInt, asCursor: nat -> bool) {
    function ToPlan(): Plan { Plan(f, o, ClampLimit(rawLimit)) }
  }

  /** The i-th request of a client, for the page after `next` or before `before`. */
  function Request(rows: seq<Doc>, w: Walk, i: nat, next: Option<Token>, before: Option<Token>)
    : Result<Response, PageError>
  {
    var cursor := if w.asCursor(i) then next else None;
    var after := if w.asCursor(i) then None else next;
    CursorPage(ExecutorOver(rows), w.base, w.f, w.o, w.rawLimit, cursor, after, before, None, None)
  }

  function TokenAt(at: Option<Doc>, f: SortField): Option<Token> {
    if at.None? then None else Some(BuildCursorFromDoc(at.value, f))
  }

  function Matching(rows: seq<Doc>, base: Filter): set<Doc> {
    set d | d in rows && Matches(base, d)
  }

  function ViewOf(r: Response): View { View(r.data, r.hasNext) }

  // ----- one forward request -------------------------------------------------

  /** The rows a forward request that has reached `at` still has ahead of it. */
  function Ahead(rows: seq<Doc>, w: Walk, at: Option<Doc>): seq<Doc> {
    if at.None? then Listing(rows, w.base, w.f, w.o)
    else Listing(rows, MergeFilter(w.base, BuildCursorFilter(CursorOf(at.value, w.f), w.f, w.o, Forward)), w.f, w.o)
  }

  lemma AheadMeaning(rows: seq<Doc>, w: Walk, at: Option<Doc>)
    requires DistinctIds(rows)
    ensures Lists(Ahead(rows, w, at), Matching(rows, w.base), w.ToPlan(), at)
  {
    ListingIsSorted(rows, w.base, w.f, w.o);
    if at.Some? {
      SeekRows(rows, w.base, w.f, w.o, at.value, Forward);
    }
  }

  /** `r` shows the first `n` of the rows `s`; its flags and cursors say exactly what lies beyond. */
  predicate Cut(r: Response, s: seq<Doc>, n: nat, at: Option<Doc>, f: SortField) {
    && r.data == Slice(s, 0, n)
    && r.hasNext == (|s| > n)
    && r.hasPrevious == at.Some?
    && r.nextCursor == (if |s| > n && n > 0 then TokenAt(Some(s[n - 1]), f) else None)
    && r.prevCursor == (if at.Some? && s != [] && n > 0 then TokenAt(Some(s[0]), f) else None)
  }

  lemma CutPage(s: seq<Doc>, n: nat, at: Option<Doc>, f: SortField, total: Option<int>)
    requires 1 <= n <= MAX_LIMIT
    ensures var page := Assemble(Slice(s, 0, n + 1), f, n, Forward, at.Some?, at.Some?);
      Cut(CursorResponse(page.nodes, page.pageInfo, total, n), s, n, at, f)
  {
  }

  lemma ForwardPage(rows: seq<Doc>, w: Walk, i: nat, at: Option<Doc>)
    ensures var r := Request(rows, w, i, TokenAt(at, w.f), None);
      r.Ok? && Cut(r.value, Ahead(rows, w, at), w.ToPlan().n, at, w.f)
  {
    var s, n := Ahead(rows, w, at), w.ToPlan().n;
    var page := Assemble(Slice(s, 0, n + 1), w.f, n, Forward, at.Some?, at.Some?);
    assert PageOf(ExecutorOver(rows), w.base, w.f, w.o, n, TokenAt(at, w.f), None) == Ok(page);
    CutPage(s, n, at, w.f, Total(w.base, None, None));
  }

  // ----- the traversal -------------------------------------------------------

  /** Answers a client's i-th request for the page after a cursor. */
  type Server = (nat, Option<Token>) -> Result<Response, PageError>

  /** The i-th request reads the rows `colls[i]`. */
  function ServerOver(colls: seq<seq<Doc>>, w: Walk): Server {
    (i: nat, next: Option<Token>) => Request(if i < |colls| then colls[i] else [], w, i, next, None)
  }

  /** The pages a client holds after up to `k` requests: it follows `nextCursor` and stops when there is none. */
  function Walked(ask: Server, k: nat): seq<Response> {
    if k == 0 then [] else AskedOn(ask, k - 1, Walked(ask, k - 1))
  }

  /** After the pages it holds, the client's i-th request, if there is a page to ask for. */
  function AskedOn(ask: Server, i: nat, pages: seq<Response>): seq<Response> {
    if pages == [] then Answered(pages, ask(i, None))
    else if pages[|pages| - 1].nextCursor.None? then pages
    else Answered(pages, ask(i, pages[|pages| - 1].nextCursor))
  }

  function Answered(pages: seq<Response>, r: Result<Response, PageError>): seq<Response> {
    if r.Ok? then pages + [r.value] else pages
  }

  function Views(pages: seq<Response>): seq<View> {
    seq(|pages|, i requires 0 <= i < |pages| => ViewOf(pages[i]))
  }

  function Found(colls: seq<seq<Doc>>, base: Filter): seq<set<Doc>> {
    seq(|colls|, i requires 0 <= i < |colls| => Matching(colls[i], base))
  }

  ghost predicate UniqueIds(colls: seq<seq<Doc>>) {
    forall i :: 0 <= i < |colls| ==> DistinctIds(colls[i])
  }

  ghost predicate CutsAhead(r: Response, found: set<Doc>, p: Plan, at: Option<Doc>) {
    exists s :: Lists(s, found, p, at) && Cut(r, s, p.n, at, p.f)
  }

  /** Every answer is cut from the rows that lie ahead of the cursor in what the request reads. */
  ghost predicate Truthful(ask: Server, found: seq<set<Doc>>, p: Plan) {
    forall i: nat, at {:trigger ask(i, TokenAt(at, p.f))} :: i < |found| ==>
      ask(i, TokenAt(at, p.f)).Ok? && CutsAhead(ask(i, TokenAt(at, p.f)).value, found[i], p, at)
  }

  lemma ServerIsTruthful(colls: seq<seq<Doc>>, w: Walk)
    requires UniqueIds(colls)
    ensures Truthful(ServerOver(colls, w), Found(colls, w.base), w.ToPlan())
  {
    forall i: nat, at | i < |colls|
      ensures var r := ServerOver(colls, w)(i, TokenAt(at, w.f));
        r.Ok? && CutsAhead(r.value, Found(colls, w.base)[i], w.ToPlan(), at)
    {
      ForwardPage(colls[i], w, i, at);
      AheadMeaning(colls[i], w, at);
    }
  }

  /** A full page's next cursor points at its last row. */
  predicate CursorAtEnd(pages: seq<Response>, f: SortField) {
    pages != [] ==>
      var r := pages[|pages| - 1];
      r.nextCursor == if r.hasNext then TokenAt(Position(Views(pages)), f) else None
  }

  lemma AppendView(pages: seq<Response>, r: Response)
    ensures Views(pages + [r]) == Views(pages) + [ViewOf(r)]
  {
  }

  lemma CutIsShown(r: Response, found: set<Doc>, p: Plan, at: Option<Doc>)
    requires CutsAhead(r, found, p, at) && p.n > 0
    ensures Shows(ViewOf(r), found, p, at)
    ensures r.nextCursor.Some? <==> r.hasNext
    ensures r.hasNext ==> r.data != [] && r.nextCursor == TokenAt(Some(r.data[|r.data| - 1]), p.f)
  {
  }

  lemma {:induction false} Step(found: seq<set<Doc>>, p: Plan, pages: seq<Response>, r: Response)
    requires Chain(found, p, Views(pages)) && !Ended(Views(pages)) && |pages| < |found| && p.n > 0
    requires CutsAhead(r, found[|pages|], p, Position(Views(pages)))
    ensures Chain(found, p, Views(pages + [r]))
    ensures CursorAtEnd(pages + [r], p.f)
  {
    AppendView(pages, r);
    CutIsShown(r, found[|pages|], p, Position(Views(pages)));
    Extend(found, p, Views(pages), ViewOf(r));
  }

  ghost predicate Followed(found: seq<set<Doc>>, p: Plan, pages: seq<Response>) {
    Chain(found, p, Views(pages)) && CursorAtEnd(pages, p.f)
  }

  /** A full page hands out the cursor to its own last row. */
  lemma CursorToFollow(found: seq<set<Doc>>, p: Plan, pages: seq<Response>)
    requires Followed(found, p, pages) && pages != [] && p.n > 0
    ensures var next := pages[|pages| - 1].nextCursor;
      if Ended(Views(pages)) then next == None
      else next == TokenAt(Position(Views(pages)), p.f) && next.Some?
  {
  }

  lemma NextPage(ask: Server, found: seq<set<Doc>>, p: Plan, pages: seq<Response>, after: Option<Token>)
    requires Truthful(ask, found, p) && Followed(found, p, pages) && p.n > 0
    requires |pages| < |found| && !Ended(Views(pages)) && after == TokenAt(Position(Views(pages)), p.f)
    ensures ask(|pages|, after).Ok? && Followed(found, p, pages + [ask(|pages|, after).value])
  {
    var at := Position(Views(pages));
    assert CutsAhead(ask(|pages|, TokenAt(at, p.f)).value, found[|pages|], p, at);
    Step(found, p, pages, ask(|pages|, after).value);
  }

  function TokenAfter(pages: seq<Response>): Option<Token> {
    if pages == [] then None else pages[|pages| - 1].nextCursor
  }

  /** While the last page promises more, the next request succeeds and extends the chain. */
  lemma MoreToCome(ask: Server, found: seq<set<Doc>>, p: Plan, pages: seq<Response>)
    requires Truthful(ask, found, p) && Followed(found, p, pages) && p.n > 0
    requires |pages| < |found| && !Ended(Views(pages))
    ensures pages != [] ==> pages[|pages| - 1].nextCursor.Some?
    ensures var r := ask(|pages|, TokenAfter(pages)); r.Ok? && Followed(found, p, pages + [r.value])
  {
    if pages != [] { CursorToFollow(found, p, pages); }
    NextPage(ask, found, p, pages, TokenAfter(pages));
  }

  /** A good page list that has ended has no next cursor; while it has not, the next request extends it. */
  ghost predicate GoesOn(ask: Server, good: seq<Response> -> bool, ended: seq<Response> -> bool, pages: seq<Response>) {
    if ended(pages) then pages != [] && pages[|pages| - 1].nextCursor.None?
    else
      var r := ask(|pages|, TokenAfter(pages));
      (pages != [] ==> pages[|pages| - 1].nextCursor.Some?) && r.Ok? && good(pages + [r.value])
  }

  lemma AskedOnStays(ask: Server, i: nat, good: seq<Response> -> bool, ended: seq<Response> -> bool,
      pages: seq<Response>)
    requires good(pages) && GoesOn(ask, good, ended, pages) && (|pages| == i || ended(pages))
    ensures good(AskedOn(ask, i, pages))
    ensures ended(pages) ==> AskedOn(ask, i, pages) == pages
    ensures !ended(pages) ==> |AskedOn(ask, i, pages)| == i + 1
  {
  }

  /** A traversal's pages stay good while each next page does, and are cut short only once ended. */
  lemma {:induction false} WalkedStays(ask: Server, k: nat, good: seq<Response> -> bool, ended: seq<Response> -> bool)
    requires good([]) && !ended([])
    requires forall pages: seq<Response> :: good(pages) && |pages| < k ==> GoesOn(ask, good, ended, pages)
    ensures good(Walked(ask, k))
    ensures |Walked(ask, k)| == k || (|Walked(ask, k)| < k && ended(Walked(ask, k)))
  {
    if k > 0 {
      var pages := Walked(ask, k - 1);
      WalkedStays(ask, k - 1, good, ended);
      AskedOnStays(ask, k - 1, good, ended, pages);
    }
  }

  /** Following cursors makes a chain; it is cut short only when a page says it is the last. */
  lemma {:induction false} WalkedIsChain(ask: Server, found: seq<set<Doc>>, p: Plan, k: nat)
    requires k <= |found| && Truthful(ask, found, p) && p.n > 0
    ensures Followed(found, p, Walked(ask, k))
    ensures |Walked(ask, k)| == k || (|Walked(ask, k)| < k && Ended(Views(Walked(ask, k))))
  {
    var good := (pages: seq<Response>) => Followed(found, p, pages);
    var ended := (pages: seq<Response>) => Ended(Views(pages));
    forall pages: seq<Response> | good(pages) && |pages| < k ensures GoesOn(ask, good, ended, pages) {
      if ended(pages) { CursorToFollow(found, p, pages); } else { MoreToCome(ask, found, p, pages); }
    }
    WalkedStays(ask, k, good, ended);
  }

  // ----- theorems ------------------------------------------------------------

  /** All rows the traversal has returned, in the order they were returned. */
  function Returned(colls: seq<seq<Doc>>, w: Walk): seq<Doc> {
    Collected(Pages(colls, w))
  }

  function Collected(pages: seq<Response>): seq<Doc> {
    if pages == [] then [] else Collected(pages[..|pages| - 1]) + pages[|pages| - 1].data
  }

  lemma {:induction false} CollectedRows(pages: seq<Response>)
    ensures Rows(Views(pages)) == Collected(pages)
  {
    if pages != [] {
      CollectedRows(pages[..|pages| - 1]);
      assert Front(Views(pages)) == Views(pages[..|pages| - 1]);
    }
  }

  /** The pages of a traversal that makes up to one request per collection state. */
  function Pages(colls: seq<seq<Doc>>, w: Walk): seq<Response> {
    Walked(ServerOver(colls, w), |colls|)
  }

  lemma PagesAreChain(colls: seq<seq<Doc>>, w: Walk)
    requires UniqueIds(colls)
    ensures Chain(Found(colls, w.base), w.ToPlan(), Views(Pages(colls, w)))
    ensures |Pages(colls, w)| == |colls| || Ended(Views(Pages(colls, w)))
  {
    ServerIsTruthful(colls, w);
    WalkedIsChain(ServerOver(colls, w), Found(colls, w.base), w.ToPlan(), |colls|);
  }

  /** Whatever is inserted or deleted between requests, the rows returned come in strictly increasing key order. */
  lemma StrictlyForward(colls: seq<seq<Doc>>, w: Walk)
    requires UniqueIds(colls)
    ensures Strict(w.f, w.o, Returned(colls, w))
  {
    PagesAreChain(colls, w);
    ChainIsForward(Found(colls, w.base), w.ToPlan(), Views(Pages(colls, w)));
    CollectedRows(Pages(colls, w));
  }

  /** A row's sort value never changes while the traversal runs. */
  ghost predicate StableKeys(colls: seq<seq<Doc>>) {
    forall i, j, d, e :: 0 <= i < |colls| && 0 <= j < |colls| && d in colls[i] && e in colls[j] && d.id == e.id
                         ==> d.value == e.value
  }

  ghost predicate StableFound(found: seq<set<Doc>>) {
    forall i, j, d, e :: 0 <= i < |found| && 0 <= j < |found| && d in found[i] && e in found[j] && d.id == e.id
                         ==> d.value == e.value
  }

  lemma FoundIsStable(colls: seq<seq<Doc>>, base: Filter)
    requires StableKeys(colls)
    ensures StableFound(Found(colls, base))
  {
  }

  lemma {:induction false} TwoRowsDiffer(found: seq<set<Doc>>, p: Plan, views: seq<View>, d: Doc, e: Doc)
    requires Chain(found, p, views) && p.n > 0 && StableFound(found)
    requires d in Rows(views) && e in Rows(views) && Precedes(p.f, p.o, d, e)
    ensures d.id != e.id
  {
    RowsAreFound(found, p, views, d);
    RowsAreFound(found, p, views, e);
  }

  lemma {:induction false} ChainRepeatsNothing(found: seq<set<Doc>>, p: Plan, views: seq<View>, s: seq<Doc>)
    requires Chain(found, p, views) && p.n > 0 && StableFound(found) && s == Rows(views) && Strict(p.f, p.o, s)
    ensures DistinctIds(s)
  {
    forall i, j | 0 <= i < j < |s| ensures s[i].id != s[j].id {
      assert Precedes(p.f, p.o, s[i], s[j]);
      TwoRowsDiffer(found, p, views, s[i], s[j]);
    }
  }

  /** No document is returned twice, on the same page or on different ones. */
  lemma NoRowTwice(colls: seq<seq<Doc>>, w: Walk)
    requires UniqueIds(colls) && StableKeys(colls)
    ensures DistinctIds(Returned(colls, w))
  {
    StrictlyForward(colls, w);
    PagesAreChain(colls, w);
    CollectedRows(Pages(colls, w));
    FoundIsStable(colls, w.base);
    ChainRepeatsNothing(Found(colls, w.base), w.ToPlan(), Views(Pages(colls, w)), Returned(colls, w));
  }

  /** Once a page reports no next page: a row that was present and matching at each request has been returned, the
      version of it that some request read being on that request's page, if and only if no page with a next page ends
      on a row of the other kind of sort value with this row behind it. */
  lemma {:induction false} ReturnedExactlyWhen(colls: seq<seq<Doc>>, w: Walk, versions: seq<Doc>)
    requires UniqueIds(colls) && colls != []
    requires PresentThroughout(Found(colls, w.base), versions)
    requires Ended(Views(Pages(colls, w)))
    ensures |Pages(colls, w)| <= |versions|
    ensures var pages := Pages(colls, w);
      (exists i :: 0 <= i < |pages| && versions[i] in pages[i].data) <==>
      !(exists i :: 0 <= i < |pages| && Skips(ViewOf(pages[i]), w.ToPlan(), versions[i]))
  {
    var pages := Pages(colls, w);
    PagesAreChain(colls, w);
    CaughtExactlyWhen(Found(colls, w.base), w.ToPlan(), Views(pages), versions);
    OnPages(pages, w.ToPlan(), versions);
  }

  lemma OnPages(pages: seq<Response>, p: Plan, versions: seq<Doc>)
    requires |pages| <= |versions|
    ensures Caught(Views(pages), versions) <==> exists i :: 0 <= i < |pages| && versions[i] in pages[i].data
    ensures Skipped(Views(pages), p, versions) <==>
      exists i :: 0 <= i < |pages| && Skips(ViewOf(pages[i]), p, versions[i])
  {
    assert forall i :: 0 <= i < |pages| ==> Views(pages)[i] == ViewOf(pages[i]);
    if i :| 0 <= i < |pages| && versions[i] in pages[i].data {
      assert versions[i] in Views(pages)[i].data;
    }
    if i :| 0 <= i < |pages| && Skips(ViewOf(pages[i]), p, versions[i]) {
      assert Skips(Views(pages)[i], p, versions[i]);
    }
  }
}
