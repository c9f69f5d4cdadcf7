/** What one seek query returns: the rows strictly after the cursor in the page's
    order, cut off where the sort value changes between null and number. */
module KeysetSeek {
  import opened Documents
  import opened CursorPagination

  /** The reference answer: every matching row, in the page's order. */
  function Listing(rows: seq<Doc>, base: Filter, f: SortField, o: Order): seq<Doc> {
    SortRows(f, o, Select(base, rows))
  }

  lemma {:induction false} ListingIsSorted(rows: seq<Doc>, base: Filter, f: SortField, o: Order)
    requires DistinctIds(rows)
    ensures var l := Listing(rows, base, f, o);
      && Strict(f, o, l)
      && (forall d :: d in l <==> d in rows && Matches(base, d))
      && |l| == |Select(base, rows)|
  {
    SelectMembers(base, rows);
    SelectKeepsDistinct(base, rows);
    SortRowsSorts(f, o, Select(base, rows));
  }

  function CursorOf(d: Doc, f: SortField): Cursor {
    BuildCursorFromDoc(d, f).payload
  }

  /** Null and numeric sort values are ordered, but no range operator compares them. */
  predicate SameKind(f: SortField, a: Doc, b: Doc) {
    f.ById? || a.value.Null? == b.value.Null?
  }

  /** The seek predicate is "strictly after, and of the cursor's own kind", whatever the order and direction. */
  lemma {:induction false} SeekMeaning(p: Doc, d: Doc, f: SortField, o: Order, dir: Direction)
    ensures Matches(BuildCursorFilter(CursorOf(p, f), f, o, dir), d)
       <==> Precedes(f, BuildSort(o, dir), p, d) && SameKind(f, p, d)
  {
    if f.ByField? {
      var op := if (o == 1) == dir.Forward? then Gt else Lt;
      assert Matches(And(FieldEquals(p.value), IdCompare(op, p.id)), d)
        <==> d.value == p.value && (if op.Gt? then d.id > p.id else d.id < p.id);
    }
  }

  /** The first index past `k` whose row is not of `l[k]`'s kind. */
  function KindEnd(f: SortField, l: seq<Doc>, k: nat): (e: nat)
    requires k < |l|
    ensures k < e <= |l|
    ensures forall j :: k <= j < e ==> SameKind(f, l[k], l[j])
    ensures e < |l| ==> !SameKind(f, l[k], l[e])
    decreases |l| - k
  {
    if k + 1 == |l| || !SameKind(f, l[k], l[k + 1]) then k + 1 else KindEnd(f, l, k + 1)
  }

  lemma OrderIsPosition(f: SortField, o: Order, l: seq<Doc>, i: nat, j: nat)
    requires Strict(f, o, l) && i < |l| && j < |l|
    ensures Precedes(f, o, l[i], l[j]) <==> i < j
  {
    if j < i { assert Precedes(f, o, l[j], l[i]); }
  }

  lemma {:induction false} KindsAreContiguous(f: SortField, o: Order, l: seq<Doc>, k: nat, j: nat)
    requires Strict(f, o, l) && k < j < |l|
    ensures SameKind(f, l[k], l[j]) <==> j < KindEnd(f, l, k)
  {
    var e := KindEnd(f, l, k);
    if e <= j {
      assert e == j || Precedes(f, o, l[e], l[j]);
      assert Precedes(f, o, l[k], l[e]);
    }
  }

  /** The rows a seek from `p` sorts and returns, for any collection: the listed rows after `p` of its kind. */
  lemma {:induction false} SeekRows(rows: seq<Doc>, base: Filter, f: SortField, o: Order, p: Doc, dir: Direction)
    requires DistinctIds(rows)
    ensures var so := BuildSort(o, dir);
      var q := MergeFilter(base, BuildCursorFilter(CursorOf(p, f), f, o, dir));
      && Strict(f, so, Listing(rows, q, f, so))
      && forall d :: d in Listing(rows, q, f, so) <==>
                     d in rows && Matches(base, d) && Precedes(f, so, p, d) && SameKind(f, p, d)
  {
    var so := BuildSort(o, dir);
    var seek := BuildCursorFilter(CursorOf(p, f), f, o, dir);
    var q := MergeFilter(base, seek);
    ListingIsSorted(rows, q, f, so);
    forall d ensures Matches(q, d) <==> Matches(base, d) && Precedes(f, so, p, d) && SameKind(f, p, d) {
      SeekMeaning(p, d, f, o, dir);
    }
  }

  /** Seeking forward from the k-th listed row returns the stretch of the listing that follows it. */
  lemma {:induction false} SeekForward(rows: seq<Doc>, base: Filter, f: SortField, o: Order, k: nat)
    requires DistinctIds(rows) && k < |Listing(rows, base, f, o)|
    ensures var l := Listing(rows, base, f, o);
      Listing(rows, MergeFilter(base, BuildCursorFilter(CursorOf(l[k], f), f, o, Forward)), f, o)
        == l[k + 1..KindEnd(f, l, k)]
  {
    var l := Listing(rows, base, f, o);
    var e := KindEnd(f, l, k);
    ListingIsSorted(rows, base, f, o);
    SeekRows(rows, base, f, o, l[k], Forward);
    var found := Listing(rows, MergeFilter(base, BuildCursorFilter(CursorOf(l[k], f), f, o, Forward)), f, o);
    forall d ensures d in found <==> d in l[k + 1..e] {
      AfterInListing(f, o, l, k, d);
    }
    StrictIsUnique(f, o, found, l[k + 1..e]);
  }

  lemma {:induction false} AfterInListing(f: SortField, o: Order, l: seq<Doc>, k: nat, d: Doc)
    requires Strict(f, o, l) && k < |l|
    ensures d in l && Precedes(f, o, l[k], d) && SameKind(f, l[k], d) <==> d in l[k + 1..KindEnd(f, l, k)]
  {
    var tail := l[k + 1..KindEnd(f, l, k)];
    if d in l && Precedes(f, o, l[k], d) && SameKind(f, l[k], d) {
      var j :| 0 <= j < |l| && l[j] == d;
      OrderIsPosition(f, o, l, k, j);
      KindsAreContiguous(f, o, l, k, j);
      assert d == tail[j - k - 1];
    }
    if d in tail {
      var i :| 0 <= i < |tail| && tail[i] == d;
      assert d == l[k + 1 + i] && d in l;
    }
  }

  lemma ReversedIsStrict(f: SortField, o: Order, l: seq<Doc>)
    requires Strict(f, o, l)
    ensures Strict(f, BuildSort(o, Backward), Reversed(l))
  {
    var r := Reversed(l);
    forall i, j | 0 <= i < j < |r| ensures Precedes(f, BuildSort(o, Backward), r[i], r[j]) {
      assert Precedes(f, o, l[|l| - 1 - j], l[|l| - 1 - i]);
    }
  }

  /** A descending listing is the ascending one read backwards. */
  lemma FlippedListing(rows: seq<Doc>, base: Filter, f: SortField, o: Order)
    requires DistinctIds(rows)
    ensures Listing(rows, base, f, BuildSort(o, Backward)) == Reversed(Listing(rows, base, f, o))
  {
    var l, b := Listing(rows, base, f, o), Listing(rows, base, f, BuildSort(o, Backward));
    var r := Reversed(l);
    ListingIsSorted(rows, base, f, o);
    ListingIsSorted(rows, base, f, BuildSort(o, Backward));
    ReversedIsStrict(f, o, l);
    forall d ensures d in b <==> d in r {
      if d in l {
        var i :| 0 <= i < |l| && l[i] == d;
        assert r[|l| - 1 - i] == d;
      }
    }
    StrictIsUnique(f, BuildSort(o, Backward), b, r);
  }

  /** A backward query is the forward query of the opposite order. */
  lemma BackwardIsFlippedForward(c: Cursor, f: SortField, o: Order)
    ensures BuildCursorFilter(c, f, o, Backward) == BuildCursorFilter(c, f, BuildSort(o, Backward), Forward)
    ensures BuildSort(o, Backward) == BuildSort(BuildSort(o, Backward), Forward)
  {
  }
}
