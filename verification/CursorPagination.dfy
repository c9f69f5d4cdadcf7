/** Keyset pagination: seek past a `(field, _id)` key, over-fetch by one row,
    and turn a backward page round in place. */
module CursorPagination {
  import opened Options
  import opened Documents

  datatype Cursor = Cursor(v: Value, id: int)

  /** An opaque cursor string: either it decodes to the payload it was made from, or it does not decode. */
  datatype Token = Malformed | Encoded(payload: Cursor)

  datatype Direction = Forward | Backward

  datatype PageError = LimitNotPositive | BothCursors | UndecodableCursor

  datatype PageInfo = PageInfo(
    hasNextPage: bool,
    hasPreviousPage: bool,
    startCursor: Option<Token>,
    endCursor: Option<Token>)

  datatype Page = Page(nodes: seq<Doc>, pageInfo: PageInfo)

  /** A page sorted by `_id` alone carries no field value in its cursors. */
  function BuildCursorFromDoc(d: Doc, f: SortField): Token {
    Encoded(if f.ById? then Cursor(Null, d.id) else Cursor(d.value, d.id))
  }

  function BuildCursorFilter(c: Cursor, f: SortField, o: Order, dir: Direction): Filter {
    var ascending := o == 1;
    var forward := dir.Forward?;
    var op := if ascending == forward then Gt else Lt;
    match f
    case ById => IdCompare(op, c.id)
    case ByField => Or(FieldCompare(op, c.v), And(FieldEquals(c.v), IdCompare(op, c.id)))
  }

  function BuildSort(o: Order, dir: Direction): Order {
    if dir.Forward? then o else if o == 1 then -1 else 1
  }

  function MergeFilter(base: Filter, seek: Filter): Filter {
    if base.Everything? then seek else And(base, seek)
  }

  function Reversed(s: seq<Doc>): (r: seq<Doc>)
    ensures |r| == |s|
    ensures forall i :: 0 <= i < |s| ==> r[i] == s[|s| - 1 - i]
  {
    seq(|s|, i requires 0 <= i < |s| => s[|s| - 1 - i])
  }

  function EdgeCursors(nodes: seq<Doc>, f: SortField): (Option<Token>, Option<Token>) {
    if nodes == [] then (None, None)
    else (Some(BuildCursorFromDoc(nodes[0], f)), Some(BuildCursorFromDoc(nodes[|nodes| - 1], f)))
  }

  /** The page made of the over-fetched rows: at most `limit` of them, in the caller's order. */
  function Assemble(fetched: seq<Doc>, f: SortField, limit: nat, dir: Direction, seeking: bool, hasAfter: bool): Page {
    var hasExtra := |fetched| > limit;
    var kept := if hasExtra then fetched[..limit] else fetched;
    var nodes := if dir.Backward? then Reversed(kept) else kept;
    var (start, end) := EdgeCursors(nodes, f);
    Page(nodes, PageInfo(
           if dir.Forward? then hasExtra else seeking,
           if dir.Backward? then hasExtra else hasAfter,
           start, end))
  }

  /** What `paginate` answers, as a function of the executor and its options. */
  function PageOf(executor: Executor, base: Filter, f: SortField, o: Order, limit: int,
                  after: Option<Token>, before: Option<Token>): Result<Page, PageError>
  {
    if limit <= 0 then Err(LimitNotPositive)
    else if after.Some? && before.Some? then Err(BothCursors)
    else
      var dir := if before.Some? then Backward else Forward;
      var active := if before.Some? then before else after;
      if active.Some? && active.value.Malformed? then Err(UndecodableCursor)
      else
        var q := if active.Some?
                 then MergeFilter(base, BuildCursorFilter(active.value.payload, f, o, dir))
                 else base;
        Ok(Assemble(executor(q, f, BuildSort(o, dir), 0, limit + 1), f, limit, dir, active.Some?, after.Some?))
  }

  /** `Array.prototype.reverse`. */
  method ReverseInPlace(page: array<Doc>)
    modifies page
    ensures page[..] == Reversed(old(page[..]))
  {
    var n := page.Length;
    var i := 0;
    while i < n / 2
      invariant 0 <= i <= n / 2
      invariant forall k :: 0 <= k < i || n - i <= k < n ==> page[k] == old(page[n - 1 - k])
      invariant forall k :: i <= k < n - i ==> page[k] == old(page[k])
    {
      page[i], page[n - 1 - i] := page[n - 1 - i], page[i];
      i := i + 1;
    }
  }

  /** `rows.slice(0, size)`, flipped back into the caller's order on the way backwards. */
  method TakePage(fetched: seq<Doc>, size: nat, direction: Direction) returns (nodes: seq<Doc>)
    requires size <= |fetched|
    ensures nodes == if direction.Backward? then Reversed(fetched[..size]) else fetched[..size]
  {
    var page := new Doc[size](i requires 0 <= i < size => fetched[i]);
    assert page[..] == fetched[..size];
    if direction.Backward? {
      ReverseInPlace(page);
    }
    nodes := page[..];
  }

  method Paginate(executor: Executor, base: Filter, f: SortField, o: Order, limit: int,
                  after: Option<Token>, before: Option<Token>) returns (r: Result<Page, PageError>)
    ensures r == PageOf(executor, base, f, o, limit, after, before)
  {
    if limit <= 0 {
      return Err(LimitNotPositive);
    }
    if after.Some? && before.Some? {
      return Err(BothCursors);
    }
    var direction := if before.Some? then Backward else Forward;
    var activeCursor := if before.Some? then before else after;
    var filter := base;
    if activeCursor.Some? {
      if activeCursor.value.Malformed? {
        return Err(UndecodableCursor);
      }
      filter := MergeFilter(base, BuildCursorFilter(activeCursor.value.payload, f, o, direction));
    }
    var fetched := executor(filter, f, BuildSort(o, direction), 0, limit + 1);
    var hasExtra := |fetched| > limit;
    var nodes := TakePage(fetched, if hasExtra then limit else |fetched|, direction);
    assert !hasExtra ==> fetched[..|fetched|] == fetched;
    var (start, end) := EdgeCursors(nodes, f);
    r := Ok(Page(nodes, PageInfo(
                   if direction.Forward? then hasExtra else activeCursor.Some?,
                   if direction.Backward? then hasExtra else after.Some?,
                   start, end)));
  }
}
