/** Overlapped recordings and payouts, and what they do to the books. */
module PayoutRaces {
  import opened Options
  import opened Ledger
  import opened Payouts
  import opened PayoutOrder

  // ----- joining runs --------------------------------------------------------

  ghost predicate Leads(k: Books, steps: seq<Step>, k': Books) { Possible(k, steps) && Run(k, steps) == k' }

  lemma {:induction false} First(k: Books, step: Step, rest: seq<Step>, k': Books)
    requires Enabled(k, step) && Leads(Apply(k, step), rest, k')
    ensures Leads(k, [step] + rest, k')
  {
    assert ([step] + rest)[0] == step && ([step] + rest)[1..] == rest;
  }

  lemma {:induction false} Stay(k: Books)
    ensures Leads(k, [], k)
  {
  }

  lemma {:induction false} RunOfTwo(k: Books, s1: Step, s2: Step)
    requires Enabled(k, s1) && Enabled(Apply(k, s1), s2)
    ensures Leads(k, [s1, s2], Apply(Apply(k, s1), s2))
  {
    var k2 := Apply(Apply(k, s1), s2);
    Stay(k2);
    First(Apply(k, s1), s2, [], k2);
    First(k, s1, [s2] + [], k2);
    assert [s1, s2] == [s1] + ([s2] + []);
  }

  lemma {:induction false} RunOfFour(k: Books, s1: Step, s2: Step, s3: Step, s4: Step)
    requires Enabled(k, s1) && Enabled(Apply(k, s1), s2) && Enabled(Apply(Apply(k, s1), s2), s3)
    requires Enabled(Apply(Apply(Apply(k, s1), s2), s3), s4)
    ensures Leads(k, [s1, s2, s3, s4], Apply(Apply(Apply(Apply(k, s1), s2), s3), s4))
  {
    var k1 := Apply(k, s1);
    var k2 := Apply(k1, s2);
    var k3 := Apply(k2, s3);
    Stay(Apply(k3, s4));
    First(k3, s4, [], Apply(k3, s4));
    First(k2, s3, [s4] + [], Apply(k3, s4));
    First(k1, s2, [s3] + ([s4] + []), Apply(k3, s4));
    First(k, s1, [s2] + ([s3] + ([s4] + [])), Apply(k3, s4));
    assert [s1, s2, s3, s4] == [s1] + ([s2] + ([s3] + ([s4] + [])));
  }

  lemma {:induction false} Then(k: Books, a: seq<Step>, k1: Books, b: seq<Step>, k2: Books)
    requires Leads(k, a, k1) && Leads(k1, b, k2)
    ensures Leads(k, a + b, k2)
    decreases |a|
  {
    if a == [] {
      assert a + b == b;
    } else {
      Then(Apply(k, a[0]), a[1..], k1, b, k2);
      assert (a + b)[0] == a[0] && (a + b)[1..] == a[1..] + b;
    }
  }

  // ----- recordings ----------------------------------------------------------

  function WholeRecording(k: Books, e: string, n: nat, settlement: Settlement): seq<Step> {
    [ReadRow(e, n, settlement)] + [Save(|k.sales|), WriteEntry(|k.sales|)]
  }

  /** A save that meets what was read. */
  lemma UntouchedSave(k: Books, i: nat, x: Sold, row: Balance)
    requires i < |k.sales| && k.sales[i] == x && BalanceOf(k.balances, x.educator) == row
    requires x.progress == Read(if x.educator in k.balances then Some(row) else None)
    ensures Enabled(k, Save(i)) && Fresh(k, i)
    ensures var k' := DoSave(k, i);
      && k'.balances == k.balances[x.educator := SavedRow(row, row, x)]
      && k'.log == k.log && k'.sales == k.sales[i := x.(progress := Saved)]
  {
  }

  function Reading(k: Books, e: string, n: nat, settlement: Settlement): Sold {
    Sold(e, n, settlement, Read(if e in k.balances then Some(k.balances[e]) else None))
  }

  lemma JustRead(k: Books, e: string, n: nat, settlement: Settlement)
    ensures DoRead(k, e, n, settlement) == k.(sales := k.sales + [Reading(k, e, n, settlement)])
  {
  }

  lemma SavedAtOnce(k: Books, k1: Books, i: nat, x: Sold, row: Balance)
    requires i < |k1.sales| && k1.sales[i] == x && k1.balances == k.balances && k1.log == k.log
    requires BalanceOf(k.balances, x.educator) == row
    requires x.progress == Read(if x.educator in k.balances then Some(row) else None)
    ensures Enabled(k1, Save(i)) && Fresh(k1, i) && Enabled(DoSave(k1, i), WriteEntry(i))
    ensures DoSave(k1, i).balances == k.balances[x.educator := Plus(row, Effect(EntryOf(x)))]
    ensures DoSave(k1, i).log == k.log && DoSave(k1, i).sales[i] == x.(progress := Saved)
  {
    UntouchedSave(k1, i, x, row);
    SavedRowAdds(row, row, x);
  }

  /** A recording with nothing in between saves fresh, and adds the amount to the row and to the entries. */
  lemma {:induction false} WholeRecordingAdds(k: Books, e: string, n: nat, settlement: Settlement)
    requires e != ""
    ensures Possible(k, WholeRecording(k, e, n, settlement))
    ensures Fresh(DoRead(k, e, n, settlement), |k.sales|)
    ensures var k' := Run(k, WholeRecording(k, e, n, settlement));
      && k'.balances == k.balances[e := Plus(BalanceOf(k.balances, e), Effect(Sale(settlement, n)))]
      && k'.log == Enter(k.log, e, Sale(settlement, n))
  {
    var i, k1 := |k.sales|, DoRead(k, e, n, settlement);
    JustRead(k, e, n, settlement);
    SavedAtOnce(k, k1, i, Reading(k, e, n, settlement), BalanceOf(k.balances, e));
    RunOfTwo(k1, Save(i), WriteEntry(i));
    First(k, ReadRow(e, n, settlement), [Save(i), WriteEntry(i)], DoWriteEntry(DoSave(k1, i), i));
  }

  /** Two recordings of one educator that both read before either saves. */
  function OverlappedRun(i: nat, e: string, m: nat, n: nat, settlement: Settlement): seq<Step> {
    [ReadRow(e, m, settlement), ReadRow(e, n, settlement)] + SavesOf(i)
  }

  function SavesOf(i: nat): seq<Step> { [Save(i), Save(i + 1), WriteEntry(i), WriteEntry(i + 1)] }

  /** Two recordings that have read one row, each about to save. */
  predicate BothRead(k: Books, i: nat, e: string, row: Balance) {
    && i + 1 < |k.sales| && e in k.balances && k.balances[e] == row
    && k.sales[i].progress == k.sales[i + 1].progress == Read(Some(row))
    && k.sales[i].educator == k.sales[i + 1].educator == e
  }

  lemma SavedTwice(k: Books, i: nat, e: string, row: Balance)
    requires BothRead(k, i, e, row)
    ensures var x, y := k.sales[i], k.sales[i + 1]; var k' := DoSave(DoSave(k, i), i + 1);
      && k'.log == k.log && k'.balances == k.balances[e := SavedRow(SavedRow(row, row, x), row, y)]
      && k'.sales == k.sales[i := x.(progress := Saved)][i + 1 := y.(progress := Saved)]
  {
  }

  lemma WrittenTwice(k: Books, i: nat, e: string)
    requires i + 1 < |k.sales| && k.sales[i].educator == k.sales[i + 1].educator == e
    ensures var k' := DoWriteEntry(DoWriteEntry(k, i), i + 1);
      && k'.balances == k.balances
      && Totals(EntriesOf(k'.log, e)) ==
           Plus(Plus(Totals(EntriesOf(k.log, e)), Effect(EntryOf(k.sales[i]))), Effect(EntryOf(k.sales[i + 1])))
  {
    TotalsAdds();
    EnterAdds(k.log, e, EntryOf(k.sales[i]), e, Totals);
    EnterAdds(DoWriteEntry(k, i).log, e, EntryOf(k.sales[i + 1]), e, Totals);
  }

  /** The second save writes over the first. */
  lemma SecondWins(row: Balance, x: Sold, y: Sold)
    requires x.settlement == y.settlement && x.amount > 0 && y.amount > 0
    ensures SavedRow(SavedRow(row, row, x), row, y) == Plus(row, Effect(EntryOf(y)))
  {
  }

  lemma SavedAndWritten(k: Books, k2: Books, k4: Books, i: nat, e: string, row: Balance)
    requires BothRead(k, i, e, row) && k2 == DoSave(DoSave(k, i), i + 1)
    requires k4 == DoWriteEntry(DoWriteEntry(k2, i), i + 1)
    ensures k4.balances == k.balances[e := SavedRow(SavedRow(row, row, k.sales[i]), row, k.sales[i + 1])]
    ensures Totals(EntriesOf(k4.log, e)) ==
      Plus(Plus(Totals(EntriesOf(k.log, e)), Effect(EntryOf(k.sales[i]))), Effect(EntryOf(k.sales[i + 1])))
  {
    SavedTwice(k, i, e, row);
    WrittenTwice(k2, i, e);
  }

  lemma {:induction false} OverlappedSavesLoseOne(k: Books, i: nat, e: string, row: Balance)
    requires BothRead(k, i, e, row) && k.sales[i].settlement == k.sales[i + 1].settlement
    requires k.sales[i].amount > 0 && k.sales[i + 1].amount > 0
    ensures Possible(k, SavesOf(i))
    ensures var k', x, y := Run(k, SavesOf(i)), k.sales[i], k.sales[i + 1];
      && BalanceOf(k'.balances, e) == Plus(row, Effect(EntryOf(y)))
      && Totals(EntriesOf(k'.log, e)) == Plus(Plus(Totals(EntriesOf(k.log, e)), Effect(EntryOf(x))), Effect(EntryOf(y)))
  {
    var k2 := DoSave(DoSave(k, i), i + 1);
    RunOfFour(k, Save(i), Save(i + 1), WriteEntry(i), WriteEntry(i + 1));
    SavedAndWritten(k, k2, DoWriteEntry(DoWriteEntry(k2, i), i + 1), i, e, row);
    SecondWins(row, k.sales[i], k.sales[i + 1]);
  }

  lemma BothReading(k: Books, e: string, m: nat, n: nat, settlement: Settlement)
    requires e != "" && e in k.balances
    ensures var k', i := DoRead(DoRead(k, e, m, settlement), e, n, settlement), |k.sales|;
      && BothRead(k', i, e, k.balances[e]) && k'.log == k.log
      && EntryOf(k'.sales[i]) == Sale(settlement, m) && EntryOf(k'.sales[i + 1]) == Sale(settlement, n)
  {
  }

  /** Wherever there is a row: of two overlapped recordings of one kind, the balance keeps the second amount alone, the
      entries have both. */
  lemma {:induction false} OverlappedSalesLoseOne(k: Books, e: string, m: nat, n: nat, settlement: Settlement)
    requires e != "" && e in k.balances && m > 0 && n > 0
    ensures Possible(k, OverlappedRun(|k.sales|, e, m, n, settlement))
    ensures var k' := Run(k, OverlappedRun(|k.sales|, e, m, n, settlement));
      && BalanceOf(k'.balances, e) == Plus(k.balances[e], Effect(Sale(settlement, n)))
      && Totals(EntriesOf(k'.log, e)) ==
           Plus(Plus(Totals(EntriesOf(k.log, e)), Effect(Sale(settlement, m))), Effect(Sale(settlement, n)))
  {
    var i, k1 := |k.sales|, DoRead(k, e, m, settlement);
    var k2 := DoRead(k1, e, n, settlement);
    BothReading(k, e, m, n, settlement);
    OverlappedSavesLoseOne(k2, i, e, k.balances[e]);
    var end := Run(k2, SavesOf(i));
    First(k1, ReadRow(e, n, settlement), SavesOf(i), end);
    First(k, ReadRow(e, m, settlement), [ReadRow(e, n, settlement)] + SavesOf(i), end);
    assert OverlappedRun(i, e, m, n, settlement) ==
      [ReadRow(e, m, settlement)] + ([ReadRow(e, n, settlement)] + SavesOf(i));
  }

  // ----- batches -------------------------------------------------------------

  /** A stored batch that pays one educator. */
  predicate Ready(k: Books, b: string, e: string, n: int) {
    b in k.batches && k.batches[b] == Batch([Recipient(e, n)], Built, 0)
  }

  predicate SameRows(k: Books, k': Books) {
    k'.balances == k.balances && k'.log == k.log && k'.history == k.history
  }

  lemma Planned(k: Books, b: string, e: string)
    requires b !in k.batches && e in k.balances && k.balances[e].owed > 0
    ensures Enabled(k, Plan(b, e)) && Enabled(Apply(k, Plan(b, e)), Build(b))
    ensures var k' := Apply(Apply(k, Plan(b, e)), Build(b));
      && Ready(k', b, e, k.balances[e].owed) && SameRows(k, k')
      && (forall c :: c != b ==> (c in k'.batches <==> c in k.batches) && BatchOf(k', c) == BatchOf(k, c))
  {
  }

  lemma {:induction false} PayAlone(k: Books, e: string, n: int)
    requires e in k.balances
    ensures var k' := PayAll(k, [Recipient(e, n)]);
      && k'.balances == k.balances[e := PaidRow(k.balances[e], n)] && k'.log == Enter(k.log, e, Payout(n))
      && HistoryOf(k'.history, e).deducted == HistoryOf(k.history, e).deducted
  {
    var rs := [Recipient(e, n)];
    assert rs[..0] == [];
  }

  lemma SettledReady(k: Books, b: string, e: string, n: int)
    requires Ready(k, b, e, n) && e in k.balances
    ensures Enabled(k, Submit(b)) && Enabled(Apply(k, Submit(b)), Settle(b))
    ensures var k' := Apply(Apply(k, Submit(b)), Settle(b));
      && k'.balances == k.balances[e := PaidRow(k.balances[e], n)]
      && Totals(EntriesOf(k'.log, e)) == Plus(Totals(EntriesOf(k.log, e)), Balance(-n, n))
      && HistoryOf(k'.history, e).deducted == HistoryOf(k.history, e).deducted
      && (forall c :: c != b ==> (c in k'.batches <==> c in k.batches) && BatchOf(k', c) == BatchOf(k, c))
  {
    PayAlone(Apply(k, Submit(b)), e, n);
    TotalsAdds();
    EnterAdds(k.log, e, Payout(n), e, Totals);
  }

  function PlansOf(e: string, b: string, c: string): seq<Step> { [Plan(b, e), Build(b), Plan(c, e), Build(c)] }

  function SettlementsOf(b: string, c: string): seq<Step> { [Submit(b), Settle(b), Submit(c), Settle(c)] }

  lemma {:induction false} TwoPlans(k: Books, e: string, b: string, c: string) returns (k': Books)
    requires b != c && b !in k.batches && c !in k.batches && e in k.balances && k.balances[e].owed > 0
    ensures Leads(k, PlansOf(e, b, c), k') && SameRows(k, k')
    ensures Ready(k', b, e, k.balances[e].owed) && Ready(k', c, e, k.balances[e].owed)
  {
    Planned(k, b, e);
    var k2 := Apply(Apply(k, Plan(b, e)), Build(b));
    Planned(k2, c, e);
    k' := Apply(Apply(k2, Plan(c, e)), Build(c));
    assert BatchOf(k', b) == BatchOf(k2, b);
    RunOfFour(k, Plan(b, e), Build(b), Plan(c, e), Build(c));
  }

  lemma {:induction false} TwoSettlements(k: Books, e: string, b: string, c: string, n: int) returns (k': Books)
    requires b != c && Ready(k, b, e, n) && Ready(k, c, e, n) && e in k.balances && k.balances[e].owed == n > 0
    ensures Leads(k, SettlementsOf(b, c), k')
    ensures BalanceOf(k'.balances, e) == Balance(0, k.balances[e].settled + n + n)
    ensures Totals(EntriesOf(k'.log, e)) == Plus(Plus(Totals(EntriesOf(k.log, e)), Balance(-n, n)), Balance(-n, n))
  {
    SettledReady(k, b, e, n);
    var k2 := Apply(Apply(k, Submit(b)), Settle(b));
    assert BatchOf(k2, c) == BatchOf(k, c);
    SettledReady(k2, c, e, n);
    k' := Apply(Apply(k2, Submit(c)), Settle(c));
    RunOfFour(k, Submit(b), Settle(b), Submit(c), Settle(c));
  }

  /** Two batches that plan one educator before either is settled pay what is owed twice: the owed balance stops at
      zero, the entries go below it, and nothing was deducted or left unwritten. */
  lemma {:induction false} TwoBatchesOverdraw(k: Books, e: string, b: string, c: string)
    requires b != c && b !in k.batches && c !in k.batches && e in k.balances && k.balances[e].owed > 0
    ensures Possible(k, PlansOf(e, b, c) + SettlementsOf(b, c))
    ensures var k', n := Run(k, PlansOf(e, b, c) + SettlementsOf(b, c)), k.balances[e].owed;
      && BalanceOf(k'.balances, e) == Balance(0, k.balances[e].settled + n + n)
      && Totals(EntriesOf(k'.log, e)) == Plus(Plus(Totals(EntriesOf(k.log, e)), Balance(-n, n)), Balance(-n, n))
  {
    var k4 := TwoPlans(k, e, b, c);
    var k8 := TwoSettlements(k4, e, b, c, k.balances[e].owed);
    Then(k, PlansOf(e, b, c), k4, SettlementsOf(b, c), k8);
  }

  lemma DeductedReady(k: Books, e: string, b: string, n: int, d: int)
    requires e != "" && Ready(k, b, e, n) && e in k.balances && 0 < d <= k.balances[e].owed
    ensures var k' := DoWithdraw(k, e, d);
      && Ready(k', b, e, n) && k'.log == k.log && k'.balances == k.balances[e := Minus(k.balances[e], Balance(d, 0))]
      && HistoryOf(k'.history, e).deducted == HistoryOf(k.history, e).deducted + d
  {
  }

  function HiddenRun(e: string, b: string, d: int): seq<Step> {
    [Plan(b, e), Build(b)] + [Withdraw(e, d)] + [Submit(b), Settle(b)]
  }

  lemma {:induction false} PlannedAndDeducted(k: Books, e: string, b: string, d: int) returns (k': Books)
    requires e != "" && b !in k.batches && e in k.balances && 0 < d <= k.balances[e].owed
    ensures Leads(k, [Plan(b, e), Build(b)] + [Withdraw(e, d)], k') && Ready(k', b, e, k.balances[e].owed)
    ensures k'.log == k.log && e in k'.balances && k'.balances[e] == Minus(k.balances[e], Balance(d, 0))
    ensures HistoryOf(k'.history, e).deducted == HistoryOf(k.history, e).deducted + d
  {
    Planned(k, b, e);
    RunOfTwo(k, Plan(b, e), Build(b));
    var k2 := Apply(Apply(k, Plan(b, e)), Build(b));
    DeductedReady(k2, e, b, k.balances[e].owed, d);
    k' := DoWithdraw(k2, e, d);
    Stay(k');
    First(k2, Withdraw(e, d), [], k');
    assert [Withdraw(e, d)] + [] == [Withdraw(e, d)];
    Then(k, [Plan(b, e), Build(b)], k2, [Withdraw(e, d)], k');
  }

  /** A deduction between planning and settling is paid out all the same: the books reconcile afterwards if and only if
      they did before, the deduction forgotten. */
  lemma {:induction false} OverdrawHidesDeduction(k: Books, e: string, b: string, d: int)
    requires e != "" && b !in k.batches && e in k.balances && 0 < d <= k.balances[e].owed
    ensures Possible(k, HiddenRun(e, b, d))
    ensures var k' := Run(k, HiddenRun(e, b, d));
      && HistoryOf(k'.history, e).deducted == HistoryOf(k.history, e).deducted + d
      && (BalanceOf(k'.balances, e) == Totals(EntriesOf(k'.log, e)) <==>
            BalanceOf(k.balances, e) == Totals(EntriesOf(k.log, e)))
  {
    var k3 := PlannedAndDeducted(k, e, b, d);
    SettledReady(k3, b, e, k.balances[e].owed);
    RunOfTwo(k3, Submit(b), Settle(b));
    Then(k, [Plan(b, e), Build(b)] + [Withdraw(e, d)], k3, [Submit(b), Settle(b)],
         Apply(Apply(k3, Submit(b)), Settle(b)));
  }

  /** A failed submission changes no row and no entry, and the batch can be submitted again for the same payouts. */
  lemma FailedBatchCanBeResubmitted(k: Books, b: string)
    requires b in k.batches && k.batches[b].status.Built?
    ensures Enabled(k, Submit(b)) && Enabled(Apply(k, Submit(b)), Fail(b))
    ensures Apply(Apply(k, Submit(b)), Fail(b)) == k
  {
  }

  /** A failure that comes in after the batch was settled puts it back, and it can be submitted and settled again. */
  lemma LateFailureReopens(k: Books, b: string)
    requires b in k.batches && k.batches[b].submissions > 0
    ensures var k' := Apply(k, Fail(b));
      && SameRows(k, k') && Enabled(k', Submit(b)) && Enabled(Apply(k', Submit(b)), Settle(b))
      && k'.batches[b].recipients == k.batches[b].recipients
  {
  }
}
