/** A run of keyset pages seen from outside: each page shows the first rows of what lay
    strictly ahead of the last row of the page before. */
module KeysetChain {
  import opened Options
  import opened Documents
  import opened KeysetSeek

  datatype View = View(data: seq<Doc>, hasNext: bool)

  /** What a traversal sorts by, and its page size. */
  datatype Plan = Plan(f: SortField, o: Order, n: nat)

  predicate IsAhead(p: Plan, at: Option<Doc>, d: Doc) {
    at.Some? ==> Precedes(p.f, p.o, at.value, d) && SameKind(p.f, at.value, d)
  }

  ghost predicate Lists(s: seq<Doc>, found: set<Doc>, p: Plan, at: Option<Doc>) {
    && Strict(p.f, p.o, s)
    && forall d :: d in s <==> d in found && IsAhead(p, at, d)
  }

  /** `v` shows the first `n` of the rows of `found` ahead of `at`, and says whether there are more. */
  ghost predicate Shows(v: View, found: set<Doc>, p: Plan, at: Option<Doc>) {
    exists s :: Lists(s, found, p, at) && v.data == Slice(s, 0, p.n) && v.hasNext == (|s| > p.n)
  }

  function Front(views: seq<View>): seq<View>
    requires views != []
  {
    views[..|views| - 1]
  }

  function Last(views: seq<View>): View
    requires views != []
  {
    views[|views| - 1]
  }

  /** Where the request after `views` starts: the last row of the last page. */
  function Position(views: seq<View>): Option<Doc> {
    if views == [] || Last(views).data == [] then None
    else Some(Last(views).data[|Last(views).data| - 1])
  }

  predicate Ended(views: seq<View>) {
    views != [] && !Last(views).hasNext
  }

  /** `found[k]` holds the matching rows the k-th request reads. */
  ghost predicate Chain(found: seq<set<Doc>>, p: Plan, views: seq<View>) {
    && |views| <= |found|
    && (views != [] ==>
          && Chain(found, p, Front(views))
          && !Ended(Front(views))
          && Shows(Last(views), found[|views| - 1], p, Position(Front(views))))
  }

  function Rows(views: seq<View>): seq<Doc> {
    if views == [] then [] else Rows(Front(views)) + Last(views).data
  }

  lemma ShownRows(v: View, found: set<Doc>, p: Plan, at: Option<Doc>)
    requires Shows(v, found, p, at) && p.n > 0
    ensures Strict(p.f, p.o, v.data)
    ensures forall d :: d in v.data ==> d in found && IsAhead(p, at, d)
    ensures v.hasNext ==> v.data != []
  {
  }

  /** Everything returned so far comes in strictly increasing key order and ends where the next request starts. */
  lemma {:induction false} ChainIsForward(found: seq<set<Doc>>, p: Plan, views: seq<View>)
    requires Chain(found, p, views) && p.n > 0
    ensures Strict(p.f, p.o, Rows(views))
    ensures views != [] && !Ended(views) ==>
      Rows(views) != [] && Position(views) == Some(Rows(views)[|Rows(views)| - 1])
  {
    if views != [] {
      ChainIsForward(found, p, Front(views));
      ShownRows(Last(views), found[|views| - 1], p, Position(Front(views)));
      if Front(views) != [] {
        Append(p, Rows(Front(views)), Last(views).data);
      }
    }
  }

  lemma Append(p: Plan, s: seq<Doc>, data: seq<Doc>)
    requires Strict(p.f, p.o, s) && Strict(p.f, p.o, data) && s != []
    requires forall d :: d in data ==> Precedes(p.f, p.o, s[|s| - 1], d)
    ensures Strict(p.f, p.o, s + data)
  {
    forall i, j | 0 <= i < |s| && 0 <= j < |data| ensures Precedes(p.f, p.o, s[i], data[j]) {
      assert data[j] in data;
      assert i == |s| - 1 || Precedes(p.f, p.o, s[i], s[|s| - 1]);
    }
  }

  lemma {:induction false} RowsAreFound(found: seq<set<Doc>>, p: Plan, views: seq<View>, d: Doc)
    requires Chain(found, p, views) && p.n > 0 && d in Rows(views)
    ensures exists i :: 0 <= i < |views| && d in found[i]
  {
    if d in Rows(Front(views)) {
      RowsAreFound(found, p, Front(views), d);
    } else {
      ShownRows(Last(views), found[|views| - 1], p, Position(Front(views)));
    }
  }

  /** `versions[i]` is what the i-th request finds of one row that is present and matching throughout. */
  ghost predicate PresentThroughout(found: seq<set<Doc>>, versions: seq<Doc>) {
    && |versions| == |found|
    && forall i :: 0 <= i < |versions| ==>
         versions[i] in found[i] && versions[i].id == versions[0].id && versions[i].value == versions[0].value
  }

  ghost predicate Caught(views: seq<View>, versions: seq<Doc>)
    requires |views| <= |versions|
  {
    exists i :: 0 <= i < |views| && versions[i] in views[i].data
  }

  /** The page promises more and ends on a row of the other kind of sort value, with `d` behind it. */
  predicate Skips(v: View, p: Plan, d: Doc) {
    && v.hasNext && v.data != []
    && var last := v.data[|v.data| - 1]; Precedes(p.f, p.o, last, d) && !SameKind(p.f, last, d)
  }

  ghost predicate Skipped(views: seq<View>, p: Plan, versions: seq<Doc>)
    requires |views| <= |versions|
  {
    exists i :: 0 <= i < |views| && Skips(views[i], p, versions[i])
  }

  lemma OnPageOrBeyond(v: View, found: set<Doc>, p: Plan, at: Option<Doc>, d: Doc)
    requires Shows(v, found, p, at) && p.n > 0
    requires d in found && IsAhead(p, at, d)
    ensures d in v.data || Skips(v, p, d) ||
      (v.hasNext && v.data != [] && IsAhead(p, Some(v.data[|v.data| - 1]), d))
  {
  }

  /** Only the key of a row decides where it stands. */
  lemma SameKey(p: Plan, d: Doc, e: Doc)
    requires d.id == e.id && d.value == e.value
    ensures forall at :: IsAhead(p, at, d) <==> IsAhead(p, at, e)
    ensures forall x :: Precedes(p.f, p.o, x, d) <==> Precedes(p.f, p.o, x, e)
    ensures forall x :: SameKind(p.f, x, d) <==> SameKind(p.f, x, e)
  {
  }

  lemma CaughtBefore(views: seq<View>, versions: seq<Doc>)
    requires views != [] && |views| <= |versions|
    ensures Caught(views, versions) <==>
      Caught(Front(views), versions) || versions[|views| - 1] in Last(views).data
  {
    if Caught(Front(views), versions) {
      var i :| 0 <= i < |Front(views)| && versions[i] in Front(views)[i].data;
      assert versions[i] in views[i].data;
    }
  }

  lemma SkippedBefore(views: seq<View>, p: Plan, versions: seq<Doc>)
    requires views != [] && |views| <= |versions|
    ensures Skipped(views, p, versions) <==>
      Skipped(Front(views), p, versions) || Skips(Last(views), p, versions[|views| - 1])
  {
    if Skipped(Front(views), p, versions) {
      var i :| 0 <= i < |Front(views)| && Skips(Front(views)[i], p, versions[i]);
      assert Skips(views[i], p, versions[i]);
    }
  }

  /** A row present throughout is already returned, skipped, or still ahead and promised. */
  lemma {:induction false} CaughtOrAhead(found: seq<set<Doc>>, p: Plan, views: seq<View>, versions: seq<Doc>)
    requires Chain(found, p, views) && p.n > 0 && found != [] && PresentThroughout(found, versions)
    ensures Caught(views, versions) || Skipped(views, p, versions)
      || (IsAhead(p, Position(views), versions[0]) && !Ended(views))
  {
    if views != [] {
      var k := |views| - 1;
      CaughtOrAhead(found, p, Front(views), versions);
      CaughtBefore(views, versions);
      SkippedBefore(views, p, versions);
      if !Caught(Front(views), versions) && !Skipped(Front(views), p, versions) {
        SameKey(p, versions[0], versions[k]);
        OnPageOrBeyond(Last(views), found[k], p, Position(Front(views)), versions[k]);
      }
    }
  }

  /** A row behind everything returned so far was not returned. */
  lemma {:induction false} NotYetCaught(found: seq<set<Doc>>, p: Plan, views: seq<View>, versions: seq<Doc>, d: Doc)
    requires Chain(found, p, views) && p.n > 0 && PresentThroughout(found, versions)
    requires versions != [] && d.id == versions[0].id && d.value == versions[0].value
    requires forall x :: x in Rows(views) ==> Precedes(p.f, p.o, x, d)
    ensures !Caught(views, versions)
  {
    if views != [] {
      CaughtBefore(views, versions);
      NotYetCaught(found, p, Front(views), versions, d);
      SameKey(p, d, versions[|views| - 1]);
      assert forall x :: x in Last(views).data ==> x in Rows(views);
    }
  }

  /** A page that skips a row, with no page before it doing so. */
  lemma {:induction false} SkippedHere(found: seq<set<Doc>>, p: Plan, views: seq<View>, versions: seq<Doc>)
    requires Chain(found, p, views) && p.n > 0 && PresentThroughout(found, versions) && views != []
    requires Skips(Last(views), p, versions[|views| - 1])
    ensures !Caught(views, versions) && OtherKindAhead(views, p, versions[|views| - 1])
  {
    var d := versions[|views| - 1];
    AllBefore(found, p, views, d);
    NotYetCaught(found, p, views, versions, d);
  }

  /** Where the next request starts, if one follows, the row is of the other kind. */
  predicate OtherKindAhead(views: seq<View>, p: Plan, d: Doc) {
    Ended(views) || (Position(views).Some? && !SameKind(p.f, Position(views).value, d))
  }

  lemma OtherKindOf(views: seq<View>, p: Plan, d: Doc, e: Doc)
    requires OtherKindAhead(views, p, d) && d.value == e.value
    ensures OtherKindAhead(views, p, e)
  {
  }

  lemma StillLost(views: seq<View>, found: set<Doc>, p: Plan, d: Doc)
    requires views != [] && p.n > 0 && Shows(Last(views), found, p, Position(Front(views)))
    requires OtherKindAhead(Front(views), p, d) && !Ended(Front(views))
    ensures d !in Last(views).data && OtherKindAhead(views, p, d)
  {
    OtherKindPage(Last(views), found, p, Position(Front(views)).value, d);
  }

  /** Once a row is skipped it has not been returned, and what lies ahead is of the other kind. */
  lemma {:induction false} SkippedIsLost(found: seq<set<Doc>>, p: Plan, views: seq<View>, versions: seq<Doc>)
    requires Chain(found, p, views) && p.n > 0 && PresentThroughout(found, versions) && Skipped(views, p, versions)
    ensures !Caught(views, versions) && OtherKindAhead(views, p, versions[0])
  {
    SkippedBefore(views, p, versions);
    if Skips(Last(views), p, versions[|views| - 1]) {
      SkippedHere(found, p, views, versions);
    } else {
      SkippedIsLost(found, p, Front(views), versions);
      OtherKindOf(Front(views), p, versions[0], versions[|views| - 1]);
      LostOnLast(found, p, views, versions);
    }
    OtherKindOf(views, p, versions[|views| - 1], versions[0]);
  }

  lemma {:induction false} LostOnLast(found: seq<set<Doc>>, p: Plan, views: seq<View>, versions: seq<Doc>)
    requires Chain(found, p, views) && p.n > 0 && views != [] && |versions| == |found|
    requires !Caught(Front(views), versions) && OtherKindAhead(Front(views), p, versions[|views| - 1])
    ensures !Caught(views, versions) && OtherKindAhead(views, p, versions[|views| - 1])
  {
    StillLost(views, found[|views| - 1], p, versions[|views| - 1]);
    CaughtBefore(views, versions);
  }

  /** A page after a row of the other kind. */
  lemma OtherKindPage(v: View, found: set<Doc>, p: Plan, at: Doc, d: Doc)
    requires Shows(v, found, p, Some(at)) && p.n > 0 && !SameKind(p.f, at, d)
    ensures d !in v.data
    ensures v.hasNext ==> v.data != [] && !SameKind(p.f, v.data[|v.data| - 1], d)
  {
    ShownRows(v, found, p, Some(at));
    if v.hasNext { assert v.data[|v.data| - 1] in v.data; }
  }

  /** Everything returned precedes what the last row returned precedes. */
  lemma {:induction false} AllBefore(found: seq<set<Doc>>, p: Plan, views: seq<View>, d: Doc)
    requires Chain(found, p, views) && p.n > 0 && views != [] && Last(views).hasNext && Last(views).data != []
    requires Precedes(p.f, p.o, Last(views).data[|Last(views).data| - 1], d)
    ensures forall x :: x in Rows(views) ==> Precedes(p.f, p.o, x, d)
  {
    ChainIsForward(found, p, views);
    var rows := Rows(views);
    forall x | x in rows ensures Precedes(p.f, p.o, x, d) {
      var j :| 0 <= j < |rows| && rows[j] == x;
      assert j == |rows| - 1 || Precedes(p.f, p.o, rows[j], rows[|rows| - 1]);
    }
  }

  /** A row present throughout an ended traversal was returned if and only if it was not skipped. */
  lemma {:induction false} CaughtExactlyWhen(found: seq<set<Doc>>, p: Plan, views: seq<View>, versions: seq<Doc>)
    requires Chain(found, p, views) && p.n > 0 && found != [] && PresentThroughout(found, versions) && Ended(views)
    ensures Caught(views, versions) <==> !Skipped(views, p, versions)
  {
    CaughtOrAhead(found, p, views, versions);
    if Skipped(views, p, versions) { SkippedIsLost(found, p, views, versions); }
  }

  /** A page that shows what lies ahead of a chain's last row continues the chain. */
  lemma {:induction false} Extend(found: seq<set<Doc>>, p: Plan, views: seq<View>, v: View)
    requires Chain(found, p, views) && |views| < |found| && !Ended(views)
    requires Shows(v, found[|views|], p, Position(views))
    ensures Chain(found, p, views + [v])
  {
  }
}
