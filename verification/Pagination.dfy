/** The standard pagination entry points on top of the cursor helper: limit clamping,
    offset mode, cursor mode, and the response both modes share. */
module Pagination {
  import opened Options
  import opened Documents
  import opened CursorPagination

  const DEFAULT_LIMIT := 20
  const MAX_LIMIT := 100

  /** A caller's number after `parseInt`: `None` when absent or not a number. */
  type RawInt = Option<int>

  function ClampLimit(raw: RawInt): (limit: nat)
    ensures 1 <= limit <= MAX_LIMIT
  {
    var limit := if raw.None? || raw.value < 1 then DEFAULT_LIMIT else raw.value;
    if limit > MAX_LIMIT then MAX_LIMIT else limit
  }

  method ResolveLimit(raw: RawInt) returns (limit: nat)
    ensures limit == ClampLimit(raw)
  {
    var l := raw.GetOr(DEFAULT_LIMIT);
    if l < 1 {
      l := DEFAULT_LIMIT;
    }
    if l > MAX_LIMIT {
      l := MAX_LIMIT;
    }
    limit := l;
  }

  datatype Response = Response(
    data: seq<Doc>,
    total: Option<int>,
    page: Option<int>,
    limit: int,
    totalPages: Option<int>,
    offset: Option<int>,
    hasNext: bool,
    hasPrevious: bool,
    startCursor: Option<Token>,
    endCursor: Option<Token>,
    nextCursor: Option<Token>,
    prevCursor: Option<Token>)

  function AtLeast(n: Option<int>, least: int): Option<int> {
    if n.Some? && n.value >= least then n else None
  }

  /** `formatPaginationResponse`: out-of-range metadata becomes null, the limit is clamped again. */
  function FormatResponse(r: Response): Response {
    Response(r.data, r.total, AtLeast(r.page, 1), ClampLimit(Some(r.limit)), AtLeast(r.totalPages, 0),
             AtLeast(r.offset, 0), r.hasNext, r.hasPrevious, r.startCursor, r.endCursor, r.nextCursor, r.prevCursor)
  }

  function CeilDiv(a: int, b: int): int
    requires b > 0
  {
    -((-a) / b)
  }

  function PageCount(total: Option<int>, limit: nat): Option<int>
    requires limit > 0
  {
    if total.Some? then Some(CeilDiv(total.value, limit)) else None
  }

  /** A caller-supplied total wins; otherwise the count query, when there is one, supplies it. */
  function Total(base: Filter, precomputed: Option<int>, counter: Option<Filter -> int>): Option<int> {
    if precomputed.Some? then precomputed
    else if counter.Some? then Some(counter.value(base))
    else None
  }

  /** What `paginateOffset` answers for an explicit `_id`-tiebroken sort. */
  function OffsetPage(executor: Executor, base: Filter, f: SortField, o: Order, rawLimit: RawInt,
                      rawPage: RawInt, explicitOffset: Option<int>,
                      precomputed: Option<int>, counter: Option<Filter -> int>): Response
  {
    var limit := ClampLimit(rawLimit);
    var page := ClampPage(rawPage);
    var offset := SkipCount(explicitOffset, page, limit);
    var data := executor(base, f, o, offset, limit);
    var total := Total(base, precomputed, counter);
    OffsetResponse(data, total, page, limit, offset,
                   PageCount(total, limit),
                   if total.Some? then offset + |data| < total.value else |data| >= limit)
  }

  function ClampPage(raw: RawInt): (page: int)
    ensures page >= 1
  {
    if raw.None? || raw.value < 1 then 1 else raw.value
  }

  function SkipCount(explicitOffset: Option<int>, page: int, limit: nat): nat
    requires page >= 1
  {
    if explicitOffset.Some? && explicitOffset.value >= 0 then explicitOffset.value else (page - 1) * limit
  }

  function OffsetResponse(data: seq<Doc>, total: Option<int>, page: int, limit: nat, offset: nat,
                          totalPages: Option<int>, hasNext: bool): Response
  {
    FormatResponse(Response(data, total, Some(page), limit, totalPages, Some(offset),
                            hasNext, offset > 0 || page > 1, None, None, None, None))
  }

  method PaginateOffset(executor: Executor, base: Filter, f: SortField, o: Order, rawLimit: RawInt,
                        rawPage: RawInt, explicitOffset: Option<int>,
                        precomputed: Option<int>, counter: Option<Filter -> int>) returns (r: Response)
    ensures r == OffsetPage(executor, base, f, o, rawLimit, rawPage, explicitOffset, precomputed, counter)
  {
    var limit := ResolveLimit(rawLimit);
    var page := ClampPage(rawPage);
    var offset := SkipCount(explicitOffset, page, limit);
    var data := executor(base, f, o, offset, limit);
    var total := Total(base, precomputed, counter);
    var hasNext := |data| >= limit;
    if total.Some? {
      hasNext := offset + |data| < total.value;
    }
    assert hasNext == if total.Some? then offset + |data| < total.value else |data| >= limit;
    r := OffsetResponse(data, total, page, limit, offset, PageCount(total, limit), hasNext);
  }

  /** What `paginateCursor` answers; `cursor` is an alias of `after`. */
  function CursorPage(executor: Executor, base: Filter, f: SortField, o: Order, rawLimit: RawInt,
                      cursor: Option<Token>, after: Option<Token>, before: Option<Token>,
                      precomputed: Option<int>, counter: Option<Filter -> int>): Result<Response, PageError>
  {
    var limit := ClampLimit(rawLimit);
    match PageOf(executor, base, f, o, limit, if after.Some? then after else cursor, before)
    case Err(e) => Err(e)
    case Ok(p) => Ok(CursorResponse(p.nodes, p.pageInfo, Total(base, precomputed, counter), limit))
  }

  /** Only a page with more beyond it hands out the cursor that leads there. */
  function CursorResponse(nodes: seq<Doc>, info: PageInfo, total: Option<int>, limit: nat): Response {
    FormatResponse(Response(
      nodes, total, None, limit, None, None,
      info.hasNextPage, info.hasPreviousPage, info.startCursor, info.endCursor,
      if info.hasNextPage then info.endCursor else None,
      if info.hasPreviousPage then info.startCursor else None))
  }

  method PaginateCursor(executor: Executor, base: Filter, f: SortField, o: Order, rawLimit: RawInt,
                        cursor: Option<Token>, after: Option<Token>, before: Option<Token>,
                        precomputed: Option<int>, counter: Option<Filter -> int>)
    returns (r: Result<Response, PageError>)
    ensures r == CursorPage(executor, base, f, o, rawLimit, cursor, after, before, precomputed, counter)
  {
    var limit := ResolveLimit(rawLimit);
    var activeAfter := if after.Some? then after else cursor;
    var cursorResult := Paginate(executor, base, f, o, limit, activeAfter, before);
    if cursorResult.Err? {
      return Err(cursorResult.error);
    }
    var total := Total(base, precomputed, counter);
    var nodes, info := cursorResult.value.nodes, cursorResult.value.pageInfo;
    r := Ok(CursorResponse(nodes, info, total, limit));
  }

  // ----- what the answers say ------------------------------------------------

  /** An absent, zero or negative limit is twenty, one above a hundred is a hundred, any other is kept. */
  lemma LimitIs(raw: RawInt)
    ensures ClampLimit(raw) == 20 <==> raw.None? || raw.value < 1 || raw.value == 20
    ensures ClampLimit(raw) == 100 <==> raw.Some? && raw.value >= 100
    ensures raw.Some? ==> (ClampLimit(raw) == raw.value <==> 1 <= raw.value <= 100)
  {
  }

  /** `cursor` does what `after` does, and is ignored when both are given. */
  lemma AfterWins(executor: Executor, base: Filter, f: SortField, o: Order, rawLimit: RawInt, cursor: Option<Token>,
                  token: Token, before: Option<Token>, precomputed: Option<int>, counter: Option<Filter -> int>)
    ensures var byAfter := CursorPage(executor, base, f, o, rawLimit, None, Some(token), before, precomputed, counter);
      && CursorPage(executor, base, f, o, rawLimit, cursor, Some(token), before, precomputed, counter) == byAfter
      && CursorPage(executor, base, f, o, rawLimit, Some(token), None, before, precomputed, counter) == byAfter
  {
  }

  /** A request fails exactly when it goes both ways, or the cursor it goes by does not decode. */
  lemma CursorPageFailsExactlyWhen(executor: Executor, base: Filter, f: SortField, o: Order, rawLimit: RawInt,
                                   cursor: Option<Token>, after: Option<Token>, before: Option<Token>,
                                   precomputed: Option<int>, counter: Option<Filter -> int>)
    ensures var r := CursorPage(executor, base, f, o, rawLimit, cursor, after, before, precomputed, counter);
      && (r == Err(BothCursors) <==> (after.Some? || cursor.Some?) && before.Some?)
      && (r == Err(UndecodableCursor) <==>
            || (before == Some(Malformed) && after.None? && cursor.None?)
            || (before.None? && (after == Some(Malformed) || (after.None? && cursor == Some(Malformed)))))
      && r != Err(LimitNotPositive)
  {
  }

  /** The cursor helper on its own also refuses a limit below one, before it looks at anything else. */
  lemma PageFailsExactlyWhen(executor: Executor, base: Filter, f: SortField, o: Order, limit: int,
                             after: Option<Token>, before: Option<Token>)
    ensures var r := PageOf(executor, base, f, o, limit, after, before);
      && (r == Err(LimitNotPositive) <==> limit <= 0)
      && (r == Err(BothCursors) <==> limit > 0 && after.Some? && before.Some?)
      && (r == Err(UndecodableCursor) <==>
            limit > 0 && ((after == Some(Malformed) && before.None?) || (after.None? && before == Some(Malformed))))
  {
  }

  /** The edge cursors are those of the first and the last row; a continuation cursor is the edge on its side, there
      exactly when its flag is set and there is a row. */
  predicate EdgesAreRows(r: Response, f: SortField) {
    && r.startCursor == (if r.data == [] then None else Some(BuildCursorFromDoc(r.data[0], f)))
    && r.endCursor == (if r.data == [] then None else Some(BuildCursorFromDoc(r.data[|r.data| - 1], f)))
    && r.nextCursor == (if r.hasNext && r.data != [] then Some(BuildCursorFromDoc(r.data[|r.data| - 1], f)) else None)
    && r.prevCursor == (if r.hasPrevious && r.data != [] then Some(BuildCursorFromDoc(r.data[0], f)) else None)
  }

  /** A cursor answer of any query engine: edges, limit, total, and no page numbers. */
  lemma CursorPageMeans(executor: Executor, base: Filter, f: SortField, o: Order, rawLimit: RawInt,
                        cursor: Option<Token>, after: Option<Token>, before: Option<Token>,
                        precomputed: Option<int>, counter: Option<Filter -> int>)
    requires CursorPage(executor, base, f, o, rawLimit, cursor, after, before, precomputed, counter).Ok?
    ensures var r := CursorPage(executor, base, f, o, rawLimit, cursor, after, before, precomputed, counter).value;
      && EdgesAreRows(r, f)
      && r.limit == ClampLimit(rawLimit) && |r.data| <= r.limit
      && r.page.None? && r.totalPages.None? && r.offset.None?
      && r.total == Total(base, precomputed, counter)
  {
  }

  /** The rows an offset request skips: an explicit offset wins, else whole pages; a missing or bad page is the
      first. */
  lemma RowsSkipped(rawPage: RawInt, explicitOffset: Option<int>, limit: nat)
    ensures ClampPage(rawPage) == (if rawPage.Some? && rawPage.value > 1 then rawPage.value else 1)
    ensures var skip := SkipCount(explicitOffset, ClampPage(rawPage), limit);
      && (explicitOffset.Some? && explicitOffset.value >= 0 ==> skip == explicitOffset.value)
      && (explicitOffset.None? || explicitOffset.value < 0 ==> skip == (ClampPage(rawPage) - 1) * limit)
  {
  }

  /** What an offset answer says of the rows it shows. */
  predicate ShowsFrom(r: Response, data: seq<Doc>, page: int, limit: nat, skip: nat, total: Option<int>) {
    && r.data == data && r.page == Some(page) && r.limit == limit && r.offset == Some(skip) && r.total == total
    && r.hasPrevious == (skip > 0 || page > 1)
    && r.hasNext == (if total.Some? then skip + |data| < total.value else |data| >= limit)
    && (total.None? ==> r.totalPages.None?)
    && r.startCursor.None? && r.endCursor.None? && r.nextCursor.None? && r.prevCursor.None?
  }

  lemma TotalIs(base: Filter, precomputed: Option<int>, counter: Option<Filter -> int>)
    ensures precomputed.Some? ==> Total(base, precomputed, counter) == precomputed
    ensures precomputed.None? && counter.Some? ==> Total(base, precomputed, counter) == Some(counter.value(base))
    ensures precomputed.None? && counter.None? ==> Total(base, precomputed, counter).None?
  {
  }

  /** An offset answer of any query engine: the rows skipped to, and the flags with and without a total. */
  lemma OffsetPageMeans(executor: Executor, base: Filter, f: SortField, o: Order, rawLimit: RawInt,
                        rawPage: RawInt, explicitOffset: Option<int>,
                        precomputed: Option<int>, counter: Option<Filter -> int>)
    ensures var limit, page := ClampLimit(rawLimit), ClampPage(rawPage);
      var skip := SkipCount(explicitOffset, page, limit);
      ShowsFrom(OffsetPage(executor, base, f, o, rawLimit, rawPage, explicitOffset, precomputed, counter),
                executor(base, f, o, skip, limit), page, limit, skip, Total(base, precomputed, counter))
  {
  }
}
