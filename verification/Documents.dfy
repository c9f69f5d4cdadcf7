/** Rows of a collection, the key order a page is sorted by, and the query engine
    behind the injected `executor`: select the matching rows, sort them, skip, take. */
module Documents {

  /** A sort-field value. `Null` also stands for a missing field: both sort before every number. */
  datatype Value = Null | Num(n: int)

  datatype Doc = Doc(id: int, value: Value, body: int)

  datatype SortField = ById | ByField

  /** Ascending (1) or descending (-1), as in a MongoDB sort. */
  type Order = o: int | o == 1 || o == -1 witness 1

  predicate ValueLess(a: Value, b: Value) {
    b.Num? && (a.Null? || a.n < b.n)
  }

  predicate KeyLess(f: SortField, a: Doc, b: Doc) {
    match f
    case ById => a.id < b.id
    case ByField => ValueLess(a.value, b.value) || (a.value == b.value && a.id < b.id)
  }

  /** `a` comes before `b` under the sort `{ field: o, _id: o }`. */
  predicate Precedes(f: SortField, o: Order, a: Doc, b: Doc) {
    if o == 1 then KeyLess(f, a, b) else KeyLess(f, b, a)
  }

  ghost predicate Strict(f: SortField, o: Order, s: seq<Doc>) {
    forall i, j {:trigger Precedes(f, o, s[i], s[j])} :: 0 <= i < j < |s| ==> Precedes(f, o, s[i], s[j])
  }

  ghost predicate DistinctIds(s: seq<Doc>) {
    forall i, j :: 0 <= i < j < |s| ==> s[i].id != s[j].id
  }

  // ----- filters -------------------------------------------------------------

  datatype Op = Gt | Lt

  datatype Filter =
    | Everything
    | Where(keep: Doc -> bool)
    | IdCompare(op: Op, id: int)
    | FieldCompare(op: Op, v: Value)
    | FieldEquals(v: Value)
    | Or(left: Filter, right: Filter)
    | And(left: Filter, right: Filter)

  /** MongoDB's range operators only match values of the operand's own type, so a
      range over numbers skips nulls and a range over null matches nothing. */
  predicate InRange(op: Op, a: Value, bound: Value) {
    a.Num? && bound.Num? && (if op.Gt? then a.n > bound.n else a.n < bound.n)
  }

  predicate Matches(q: Filter, d: Doc) {
    match q
    case Everything => true
    case Where(keep) => keep(d)
    case IdCompare(op, id) => if op.Gt? then d.id > id else d.id < id
    case FieldCompare(op, v) => InRange(op, d.value, v)
    case FieldEquals(v) => d.value == v
    case Or(l, r) => Matches(l, d) || Matches(r, d)
    case And(l, r) => Matches(l, d) && Matches(r, d)
  }

  function Select(q: Filter, rows: seq<Doc>): seq<Doc> {
    if rows == [] then []
    else if Matches(q, rows[0]) then [rows[0]] + Select(q, rows[1..])
    else Select(q, rows[1..])
  }

  lemma {:induction false} SelectMembers(q: Filter, rows: seq<Doc>)
    ensures forall d :: d in Select(q, rows) <==> d in rows && Matches(q, d)
  {
    if rows != [] {
      SelectMembers(q, rows[1..]);
      assert rows == [rows[0]] + rows[1..];
    }
  }

  lemma {:induction false} SelectKeepsDistinct(q: Filter, rows: seq<Doc>)
    requires DistinctIds(rows)
    ensures DistinctIds(Select(q, rows))
  {
    if rows != [] {
      SelectKeepsDistinct(q, rows[1..]);
      SelectMembers(q, rows[1..]);
      var rest := Select(q, rows[1..]);
      forall j | 0 <= j < |rest| ensures rest[j].id != rows[0].id {
        assert rest[j] in rows[1..];
      }
    }
  }

  // ----- sorting -------------------------------------------------------------

  function Insert(f: SortField, o: Order, x: Doc, s: seq<Doc>): seq<Doc> {
    if s == [] then [x]
    else if Precedes(f, o, x, s[0]) then [x] + s
    else [s[0]] + Insert(f, o, x, s[1..])
  }

  function SortRows(f: SortField, o: Order, s: seq<Doc>): seq<Doc> {
    if s == [] then [] else Insert(f, o, s[0], SortRows(f, o, s[1..]))
  }

  lemma {:induction false} InsertMembers(f: SortField, o: Order, x: Doc, s: seq<Doc>)
    ensures |Insert(f, o, x, s)| == |s| + 1
    ensures forall d :: d in Insert(f, o, x, s) <==> d == x || d in s
  {
    if s != [] && !Precedes(f, o, x, s[0]) {
      InsertMembers(f, o, x, s[1..]);
      assert s == [s[0]] + s[1..];
    }
  }

  lemma {:induction false} InsertKeepsStrict(f: SortField, o: Order, x: Doc, s: seq<Doc>)
    requires Strict(f, o, s)
    requires forall d :: d in s ==> d.id != x.id
    ensures Strict(f, o, Insert(f, o, x, s))
  {
    if s != [] && Precedes(f, o, x, s[0]) {
      forall j | 0 <= j < |s| ensures Precedes(f, o, x, s[j]) {
        assert j == 0 || Precedes(f, o, s[0], s[j]);
      }
    } else if s != [] {
      InsertKeepsStrict(f, o, x, s[1..]);
      var rest := Insert(f, o, x, s[1..]);
      InsertMembers(f, o, x, s[1..]);
      forall j | 0 <= j < |rest| ensures Precedes(f, o, s[0], rest[j]) {
        assert rest[j] == x || rest[j] in s[1..];
        assert s[0] in s;
      }
    }
  }

  /** Sorting rows with distinct ids puts exactly those rows in strictly increasing key order. */
  lemma {:induction false} SortRowsSorts(f: SortField, o: Order, s: seq<Doc>)
    requires DistinctIds(s)
    ensures Strict(f, o, SortRows(f, o, s))
    ensures |SortRows(f, o, s)| == |s|
    ensures forall d :: d in SortRows(f, o, s) <==> d in s
  {
    if s != [] {
      SortRowsSorts(f, o, s[1..]);
      InsertMembers(f, o, s[0], SortRows(f, o, s[1..]));
      assert s == [s[0]] + s[1..];
      InsertKeepsStrict(f, o, s[0], SortRows(f, o, s[1..]));
    }
  }

  /** A strictly sorted listing of a set of rows is unique. */
  lemma {:induction false} StrictIsUnique(f: SortField, o: Order, a: seq<Doc>, b: seq<Doc>)
    requires Strict(f, o, a) && Strict(f, o, b)
    requires forall d :: d in a <==> d in b
    ensures a == b
  {
    if a == [] {
      assert forall i :: 0 <= i < |b| ==> b[i] in b;
    } else {
      assert a[0] in a && a[0] in b;
      var i :| 0 <= i < |b| && b[i] == a[0];
      assert b[0] in b && b[0] in a;
      var j :| 0 <= j < |a| && a[j] == b[0];
      assert i == 0 || j == 0 || (Precedes(f, o, b[0], b[i]) && Precedes(f, o, a[0], a[j]));
      forall d ensures d in a[1..] <==> d in b[1..] {
        TailMembers(f, o, a, d);
        TailMembers(f, o, b, d);
      }
      StrictIsUnique(f, o, a[1..], b[1..]);
      assert a == [a[0]] + a[1..] && b == [b[0]] + b[1..];
    }
  }

  lemma TailMembers(f: SortField, o: Order, a: seq<Doc>, d: Doc)
    requires a != [] && Strict(f, o, a)
    ensures d in a[1..] <==> d in a && d != a[0]
  {
    if d in a[1..] {
      var i :| 0 <= i < |a[1..]| && a[1..][i] == d;
      assert Precedes(f, o, a[0], a[i + 1]);
    }
  }

  // ----- the executor --------------------------------------------------------

  /** `find(q).sort(..).skip(skip).limit(limit)` over the stored rows. */
  function Execute(rows: seq<Doc>, q: Filter, f: SortField, o: Order, skip: nat, limit: nat): (r: seq<Doc>)
    ensures |r| <= limit
  {
    Slice(SortRows(f, o, Select(q, rows)), skip, limit)
  }

  /** A query runner: filter, sort field and order, rows to skip, most rows to return. */
  type Executor = (Filter, SortField, Order, nat, nat) -> seq<Doc>

  function ExecutorOver(rows: seq<Doc>): Executor {
    (q: Filter, f: SortField, o: Order, skip: nat, limit: nat) => Execute(rows, q, f, o, skip, limit)
  }

  function CounterOver(rows: seq<Doc>): Filter -> int {
    q => |Select(q, rows)|
  }

  function Slice(s: seq<Doc>, skip: nat, limit: nat): (r: seq<Doc>)
    ensures |r| <= limit
  {
    var lo := if skip < |s| then skip else |s|;
    var hi := if lo + limit < |s| then lo + limit else |s|;
    s[lo..hi]
  }
}
