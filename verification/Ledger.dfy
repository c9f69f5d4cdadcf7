/** Educator balances: guarded moves between what is owed and what is settled, and reconciliation with the entry log. */
module Ledger {
  import opened Options

  /** Balances in stroops; a missing field is read as zero everywhere. */
  datatype Balance = Balance(owed: int, settled: int)

  datatype Error = MissingEducator | AmountNotPositive

  /** A call throws, is refused for insufficient funds (null), or returns the updated row. */
  datatype Move = Thrown(error: Error) | Refused | Moved(balance: Balance)

  type Balances = map<string, Balance>

  function BalanceOf(b: Balances, educator: string): Balance {
    if educator in b then b[educator] else Balance(0, 0)
  }

  function Guard(educator: string, amount: int): Option<Error> {
    if educator == "" then Some(MissingEducator)
    else if amount <= 0 then Some(AmountNotPositive)
    else None
  }

  /** Creates the row when there is none. */
  function Credit(b: Balances, educator: string, amount: int): (Move, Balances) {
    match Guard(educator, amount)
    case Some(e) => (Thrown(e), b)
    case None =>
      var row := BalanceOf(b, educator);
      var moved := row.(owed := row.owed + amount);
      (Moved(moved), b[educator := moved])
  }

  function Deduct(b: Balances, educator: string, amount: int): (Move, Balances) {
    match Guard(educator, amount)
    case Some(e) => (Thrown(e), b)
    case None =>
      if educator !in b || b[educator].owed < amount then (Refused, b)
      else
        var moved := b[educator].(owed := b[educator].owed - amount);
        (Moved(moved), b[educator := moved])
  }

  function SettleOwed(b: Balances, educator: string, amount: int): (Move, Balances) {
    match Guard(educator, amount)
    case Some(e) => (Thrown(e), b)
    case None =>
      if educator !in b || b[educator].owed < amount then (Refused, b)
      else
        var moved := Balance(b[educator].owed - amount, b[educator].settled + amount);
        (Moved(moved), b[educator := moved])
  }

  // ----- entries and reconciliation ------------------------------------------

  datatype Settlement = Direct | PlatformCollect | Unset

  datatype Entry = Sale(settlement: Settlement, amount: int) | Payout(amount: int)

  function Effect(e: Entry): Balance {
    match e
    case Sale(PlatformCollect, amount) => Balance(amount, 0)
    case Sale(_, amount) => Balance(0, amount)
    case Payout(amount) => Balance(-amount, amount)
  }

  function Plus(a: Balance, b: Balance): Balance { Balance(a.owed + b.owed, a.settled + b.settled) }

  function Totals(entries: seq<Entry>): Balance {
    if entries == [] then Balance(0, 0)
    else Plus(Totals(entries[..|entries| - 1]), Effect(entries[|entries| - 1]))
  }

  datatype Mismatch = OwedMismatch(stored: int, computed: int) | SettledMismatch(stored: int, computed: int)

  datatype Report = Report(isConsistent: bool, stored: Balance, computed: Balance, discrepancies: seq<Mismatch>)

  /** The mismatch reports a field that differs, with both its values. */
  predicate Differs(stored: Balance, computed: Balance, m: Mismatch) {
    || (m == OwedMismatch(stored.owed, computed.owed) && stored.owed != computed.owed)
    || (m == SettledMismatch(stored.settled, computed.settled) && stored.settled != computed.settled)
  }

  /** The loop of `reconcileBalance` over an educator's entries, in whatever order they were read. */
  method Reconcile(row: Option<Balance>, entries: seq<Entry>) returns (r: Report)
    ensures r.computed == Totals(entries) && r.stored == row.GetOr(Balance(0, 0))
    ensures r.isConsistent <==> r.stored == Totals(entries)
    ensures forall m :: m in r.discrepancies <==> Differs(r.stored, r.computed, m)
  {
    var computedOwed, computedSettled := 0, 0;
    var i := 0;
    while i < |entries|
      invariant 0 <= i <= |entries|
      invariant Balance(computedOwed, computedSettled) == Totals(entries[..i])
    {
      assert entries[..i + 1][..i] == entries[..i];
      match entries[i] {
        case Sale(settlement, amount) =>
          if settlement.PlatformCollect? {
            computedOwed := computedOwed + amount;
          } else {
            computedSettled := computedSettled + amount;
          }
        case Payout(amount) =>
          computedOwed := computedOwed - amount;
          computedSettled := computedSettled + amount;
      }
      i := i + 1;
    }
    assert entries[..i] == entries;
    var stored := row.GetOr(Balance(0, 0));
    var discrepancies := [];
    if stored.owed != computedOwed {
      discrepancies := discrepancies + [OwedMismatch(stored.owed, computedOwed)];
    }
    if stored.settled != computedSettled {
      discrepancies := discrepancies + [SettledMismatch(stored.settled, computedSettled)];
    }
    r := Report(|discrepancies| == 0, stored, Balance(computedOwed, computedSettled), discrepancies);
  }

  // ----- order does not matter -----------------------------------------------

  /** What the proofs below need of `Totals`: it starts at zero and adds each entry's effect. */
  ghost predicate Adds(t: seq<Entry> -> Balance) {
    t([]) == Balance(0, 0) && forall s, e {:trigger t(s + [e])} :: t(s + [e]) == Plus(t(s), Effect(e))
  }

  lemma TotalsAdds()
    ensures Adds(Totals)
  {
  }

  lemma {:induction false} AddsConcat(t: seq<Entry> -> Balance, a: seq<Entry>, b: seq<Entry>)
    requires Adds(t)
    ensures t(a + b) == Plus(t(a), t(b))
    decreases |b|
  {
    if b == [] {
      assert a + b == a;
    } else {
      var c, e := b[..|b| - 1], b[|b| - 1];
      assert b == c + [e] && a + b == (a + c) + [e];
      AddsConcat(t, a, c);
    }
  }

  lemma AddsInsert(t: seq<Entry> -> Balance, x: seq<Entry>, e: Entry, y: seq<Entry>)
    requires Adds(t)
    ensures t(x + [e] + y) == Plus(t(x + y), Effect(e))
  {
    AddsConcat(t, x + [e], y);
    AddsConcat(t, x, y);
  }

  lemma Without<T>(s: seq<T>, i: nat)
    requires i < |s|
    ensures s == s[..i] + [s[i]] + s[i + 1..]
    ensures multiset(s[..i] + s[i + 1..]) == multiset(s) - multiset{s[i]}
  {
  }

  lemma {:induction false} AddsIgnoresOrder(t: seq<Entry> -> Balance, a: seq<Entry>, b: seq<Entry>)
    requires Adds(t) && multiset(a) == multiset(b)
    ensures t(a) == t(b)
    decreases |a|
  {
    if a == [] {
      assert |multiset(b)| == 0;
      assert b == [];
    } else {
      assert a[0] in multiset(a);
      var i :| 0 <= i < |b| && b[i] == a[0];
      Without(a, 0);
      Without(b, i);
      AddsInsert(t, a[..0], a[0], a[1..]);
      AddsInsert(t, b[..i], b[i], b[i + 1..]);
      AddsIgnoresOrder(t, a[..0] + a[1..], b[..i] + b[i + 1..]);
    }
  }

  /** The order in which the entries are read does not change the totals. */
  lemma {:induction false} TotalsIgnoreOrder(a: seq<Entry>, b: seq<Entry>)
    requires multiset(a) == multiset(b)
    ensures Totals(a) == Totals(b)
  {
    TotalsAdds();
    AddsIgnoresOrder(Totals, a, b);
  }

  // ----- entries by educator -------------------------------------------------

  type Log = map<string, seq<Entry>>

  function EntriesOf(log: Log, educator: string): seq<Entry> {
    if educator in log then log[educator] else []
  }

  function Enter(log: Log, educator: string, e: Entry): Log {
    log[educator := EntriesOf(log, educator) + [e]]
  }

  lemma EnterAdds(log: Log, educator: string, e: Entry, other: string, t: seq<Entry> -> Balance)
    requires Adds(t)
    ensures t(EntriesOf(Enter(log, educator, e), other)) ==
      if other == educator then Plus(t(EntriesOf(log, other)), Effect(e)) else t(EntriesOf(log, other))
  {
  }

  // ----- the guarded moves ---------------------------------------------------

  /** A guarded move: refused or thrown it changes nothing; otherwise only this educator's row changes, neither
      balance goes below zero, a credit and a deduction change what is owed by the amount, and a settlement conserves
      owed plus settled. */
  lemma MovesAreGuarded(b: Balances, educator: string, amount: int)
    requires BalanceOf(b, educator).owed >= 0 && BalanceOf(b, educator).settled >= 0
    ensures var (move, b') := SettleOwed(b, educator, amount);
      var row, row' := BalanceOf(b, educator), BalanceOf(b', educator);
      && Guarded(b, b', educator, amount, move)
      && (move.Moved? <==> educator != "" && 0 < amount <= row.owed)
      && row'.owed + row'.settled == row.owed + row.settled && (move.Moved? ==> row'.settled == row.settled + amount)
    ensures var (move, b') := Deduct(b, educator, amount);
      var row, row' := BalanceOf(b, educator), BalanceOf(b', educator);
      && Guarded(b, b', educator, amount, move)
      && (move.Moved? <==> educator != "" && 0 < amount <= row.owed)
      && row'.settled == row.settled && (move.Moved? ==> row'.owed == row.owed - amount)
    ensures var (move, b') := Credit(b, educator, amount);
      var row, row' := BalanceOf(b, educator), BalanceOf(b', educator);
      && Guarded(b, b', educator, amount, move)
      && (move.Moved? <==> educator != "" && amount > 0)
      && row'.settled == row.settled && (move.Moved? ==> row'.owed == row.owed + amount)
  {
  }

  ghost predicate Guarded(b: Balances, b': Balances, educator: string, amount: int, move: Move) {
    && (move == Thrown(MissingEducator) <==> educator == "")
    && (move == Thrown(AmountNotPositive) <==> educator != "" && amount <= 0)
    && (!move.Moved? ==> b' == b)
    && (move.Moved? ==> b' == b[educator := move.balance])
    && BalanceOf(b', educator).owed >= 0 && BalanceOf(b', educator).settled >= 0
    && forall other :: other != educator ==> BalanceOf(b', other) == BalanceOf(b, other)
  }

  // ----- the collection ------------------------------------------------------

  class BalanceStore {
    var balances: Balances

    constructor ()
      ensures balances == map[]
    {
      balances := map[];
    }

    method CreditOwedBalance(educator: string, amount: int) returns (move: Move)
      modifies this
      ensures (move, balances) == Credit(old(balances), educator, amount)
    {
      if educator == "" { return Thrown(MissingEducator); }
      if amount <= 0 { return Thrown(AmountNotPositive); }
      var row := if educator in balances then balances[educator] else Balance(0, 0);
      row := row.(owed := row.owed + amount);
      balances := balances[educator := row];
      move := Moved(row);
    }

    method DeductOwedBalance(educator: string, amount: int) returns (move: Move)
      modifies this
      ensures (move, balances) == Deduct(old(balances), educator, amount)
    {
      if educator == "" { return Thrown(MissingEducator); }
      if amount <= 0 { return Thrown(AmountNotPositive); }
      if educator !in balances || !(balances[educator].owed >= amount) { return Refused; }
      var row := balances[educator];
      row := row.(owed := row.owed - amount);
      balances := balances[educator := row];
      move := Moved(row);
    }

    method SettleOwedToSettled(educator: string, amount: int) returns (move: Move)
      modifies this
      ensures (move, balances) == SettleOwed(old(balances), educator, amount)
    {
      if educator == "" { return Thrown(MissingEducator); }
      if amount <= 0 { return Thrown(AmountNotPositive); }
      if educator !in balances || !(balances[educator].owed >= amount) { return Refused; }
      var row := balances[educator];
      row := row.(owed := row.owed - amount);
      row := row.(settled := row.settled + amount);
      balances := balances[educator := row];
      move := Moved(row);
    }

    method ReconcileBalance(educator: string, log: Log) returns (r: Result<Report, Error>)
      ensures r.Err? <==> educator == ""
      ensures r.Err? ==> r.error == MissingEducator
      ensures r.Ok? ==>
        && r.value.stored == BalanceOf(balances, educator) && r.value.computed == Totals(EntriesOf(log, educator))
        && (r.value.isConsistent <==> r.value.stored == r.value.computed)
        && forall m :: m in r.value.discrepancies <==> Differs(r.value.stored, r.value.computed, m)
    {
      if educator == "" { return Err(MissingEducator); }
      var row := if educator in balances then Some(balances[educator]) else None;
      var report := Reconcile(row, EntriesOf(log, educator));
      r := Ok(report);
    }
  }
}
