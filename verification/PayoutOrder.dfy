/** Exactly when a save or a settlement keeps the books sound, and runs in an order in which all do. */
module PayoutOrder {
  import opened Ledger
  import opened Payouts

  // ----- exactly when a save or a settlement keeps the books sound ------------

  /** Money is conserved, and the entries are off by the deductions and the entries not written alone. */
  predicate Sound(a: Account) {
    && a.stored.owed + a.stored.settled == a.credited.owed + a.credited.settled - a.history.deducted
    && a.computed.owed == a.stored.owed + a.history.deducted - a.unlogged.owed
    && a.computed.settled == a.stored.settled - a.unlogged.settled
  }

  /** The field a recording is about to write still holds what it read, or it writes nothing. */
  predicate Fresh(k: Books, i: nat)
    requires i < |k.sales| && k.sales[i].progress.Read?
  {
    var x := k.sales[i];
    || x.amount == 0 || x.progress.row.None?
    || Field(BalanceOf(k.balances, x.educator), x.settlement) == Field(x.progress.row.value, x.settlement)
  }

  lemma SaveOnIsSoundExactlyWhen(a: Account, x: Sold, read: Balance)
    requires Sound(a)
    ensures Sound(SaveOn(a, x, read)) <==>
      x.amount == 0 || Field(a.stored, x.settlement) == Field(read, x.settlement)
  {
    SavedRowAdds(a.stored, read, x);
  }

  /** A save keeps its educator's books sound if and only if the field it writes still holds what the recording read,
      or there was no row to read. */
  lemma SaveIsSoundExactlyWhen(k: Books, i: nat)
    requires Enabled(k, Save(i)) && Sound(AccountOf(k, ViewOf(k.sales[i].educator)))
    ensures Sound(AccountOf(DoSave(k, i), ViewOf(k.sales[i].educator))) <==> Fresh(k, i)
  {
    var x := k.sales[i];
    var v := ViewOf(x.educator);
    ViewCounts(x.educator);
    SavePosts(k, i, v);
    if !Collides(k, i) {
      SaveOnIsSoundExactlyWhen(AccountOf(k, v), x, RowRead(k, i));
    }
  }

  predicate Covers(b: Balances, r: Recipient) { r.educator in b && b[r.educator].owed >= r.amount }

  predicate CoversAll(b: Balances, rs: seq<Recipient>) { forall i :: 0 <= i < |rs| ==> Covers(b, rs[i]) }

  /** A settlement touches the rows of its recipients only. */
  lemma {:induction false} PayAllFrame(k: Books, rs: seq<Recipient>)
    ensures PayAll(k, rs).balances.Keys == k.balances.Keys
    ensures forall e :: e in k.balances && !Pays(rs, e) ==> PayAll(k, rs).balances[e] == k.balances[e]
    decreases |rs|
  {
    if rs != [] {
      var front := rs[..|rs| - 1];
      PayAllFrame(k, front);
      forall e | e in k.balances && !Pays(rs, e) ensures PayAll(k, rs).balances[e] == k.balances[e] {
        NotPaidBefore(rs, e);
      }
    }
  }

  lemma NotPaidBefore(rs: seq<Recipient>, e: string)
    requires rs != [] && !Pays(rs, e)
    ensures rs[|rs| - 1].educator != e && !Pays(rs[..|rs| - 1], e)
  {
  }

  lemma {:induction false} PayAllSkips(k: Books, rs: seq<Recipient>, v: View)
    requires Counts(v) && !Pays(rs, v.educator)
    ensures AccountOf(PayAll(k, rs), v) == AccountOf(k, v)
    decreases |rs|
  {
    if rs != [] {
      NotPaidBefore(rs, v.educator);
      PayAllSkips(k, rs[..|rs| - 1], v);
      PayToPosts(PayAll(k, rs[..|rs| - 1]), rs[|rs| - 1], v);
    }
  }

  /** What a settlement does to the account of its i-th recipient. */
  lemma {:induction false} PayAllPosts(k: Books, rs: seq<Recipient>, i: nat, v: View)
    requires Counts(v) && Distinct(rs) && i < |rs| && rs[i].educator == v.educator
    ensures AccountOf(PayAll(k, rs), v) == PayOn(AccountOf(k, v), v.educator in k.balances, rs[i].amount)
    decreases |rs|
  {
    var front, last := rs[..|rs| - 1], rs[|rs| - 1];
    PayToPosts(PayAll(k, front), last, v);
    PayAllFrame(k, front);
    if i < |front| {
      PayAllPosts(k, front, i, v);
    } else {
      assert !Pays(front, v.educator);
      PayAllSkips(k, front, v);
    }
  }

  lemma PayOnIsSoundExactlyWhen(a: Account, present: bool, n: int)
    requires Sound(a) && n > 0
    ensures Sound(PayOn(a, present, n)) <==> present && a.stored.owed >= n
  {
  }

  predicate AllSound(k: Books, educators: set<string>) {
    forall e :: e in educators ==> Sound(AccountOf(k, ViewOf(e)))
  }

  function Educators(rs: seq<Recipient>): set<string> { set i | 0 <= i < |rs| :: rs[i].educator }

  /** A settlement keeps its recipients' books sound if and only if every row still holds what was planned from it. */
  lemma SettlementIsSoundExactlyWhen(k: Books, b: string)
    requires Solvent(k) && Enabled(k, Settle(b))
    requires AllSound(k, Educators(k.batches[b].recipients))
    ensures AllSound(DoSettle(k, b), Educators(k.batches[b].recipients)) <==>
      CoversAll(k.balances, k.batches[b].recipients)
  {
    var rs := k.batches[b].recipients;
    forall i | 0 <= i < |rs|
      ensures Sound(AccountOf(DoSettle(k, b), ViewOf(rs[i].educator))) <==> Covers(k.balances, rs[i])
    {
      var v := ViewOf(rs[i].educator);
      ViewCounts(rs[i].educator);
      PayAllPosts(k, rs, i, v);
      assert rs[i].educator in Educators(rs);
      PayOnIsSoundExactlyWhen(AccountOf(k, v), rs[i].educator in k.balances, rs[i].amount);
      assert AccountOf(DoSettle(k, b), v) == AccountOf(PayAll(k, rs), v);
    }
    EachRecipient(k.balances, DoSettle(k, b), rs);
  }

  lemma EachRecipient(before: Balances, k: Books, rs: seq<Recipient>)
    requires forall i :: 0 <= i < |rs| ==> (Sound(AccountOf(k, ViewOf(rs[i].educator))) <==> Covers(before, rs[i]))
    ensures AllSound(k, Educators(rs)) <==> CoversAll(before, rs)
  {
    if AllSound(k, Educators(rs)) {
      forall i | 0 <= i < |rs| ensures Covers(before, rs[i]) {
        assert rs[i].educator in Educators(rs);
      }
    }
  }

  // ----- orderly runs --------------------------------------------------------

  predicate Open(k: Books, b: string) { b in k.batches && !k.batches[b].status.Confirmed? }

  /** An unsettled batch pays the educator. */
  ghost predicate Claimed(k: Books, educator: string) {
    exists b :: Open(k, b) && Pays(k.batches[b].recipients, educator)
  }

  /** Saves meet what was read, an educator in an open batch is neither planned again nor deducted from nor settled
      otherwise, and a batch is submitted once at a time. */
  ghost predicate Orderly(k: Books, step: Step) {
    && Enabled(k, step)
    && match step
       case Save(i) => Fresh(k, i)
       case Withdraw(e, _) => !Claimed(k, e)
       case PayOut(e, _) => !Claimed(k, e)
       case Plan(_, e) => !Claimed(k, e)
       case Submit(b) => k.batches[b].submissions == 0
       case _ => true
  }

  ghost predicate OrderlyRun(k: Books, steps: seq<Step>)
    decreases |steps|
  {
    steps != [] ==> Orderly(k, steps[0]) && OrderlyRun(Apply(k, steps[0]), steps[1..])
  }

  /** Open batches are covered by the rows. */
  ghost predicate Covered(k: Books) {
    forall b :: Open(k, b) ==> CoversAll(k.balances, k.batches[b].recipients)
  }

  /** No two open batches pay one educator, and none does so twice. */
  ghost predicate Exclusive(k: Books) {
    && (forall b :: b in k.batches ==> Distinct(k.batches[b].recipients))
    && (forall b, c, e ::
          Open(k, b) && Open(k, c) && Pays(k.batches[b].recipients, e) && Pays(k.batches[c].recipients, e) ==> b == c)
  }

  ghost predicate SubmittedOnce(k: Books) {
    forall b :: b in k.batches ==>
      k.batches[b].submissions <= if k.batches[b].status.Confirmed? then 0 else 1
  }

  predicate Gapless(h: History) { h.overdrawn == 0 && h.unbacked == 0 && h.missedOwed == h.missedSettled == 0 }

  ghost predicate Clean(k: Books) { forall e :: e in k.history ==> Gapless(k.history[e]) }

  ghost predicate OrderlyInv(k: Books) {
    Covered(k) && Exclusive(k) && SubmittedOnce(k) && Clean(k)
  }

  /** Nothing but the rows and the history matters to the invariant, and rows may only rise. */
  lemma RowsRise(k: Books, k': Books)
    requires OrderlyInv(k) && k'.batches == k.batches && Clean(k')
    requires forall e :: e in k.balances ==> e in k'.balances && k'.balances[e].owed >= k.balances[e].owed
    ensures OrderlyInv(k')
  {
  }

  lemma FreshRow(row: Balance, read: Balance, x: Sold)
    requires x.amount == 0 || Field(row, x.settlement) == Field(read, x.settlement)
    ensures MissedOwed(row, read, x) == MissedSettled(row, read, x) == 0 && SavedRow(row, read, x).owed >= row.owed
  {
  }

  /** A fresh save raises the row, or collides and changes no row. */
  lemma FreshSaveRaises(k: Books, i: nat)
    requires Enabled(k, Save(i)) && Fresh(k, i)
    ensures var k', x := DoSave(k, i), k.sales[i];
      && k'.batches == k.batches && (Clean(k) ==> Clean(k'))
      && (Collides(k, i) ==> k'.balances == k.balances)
      && (!Collides(k, i) ==>
            k'.balances == k.balances[x.educator := SavedRow(BalanceOf(k.balances, x.educator), RowRead(k, i), x)])
  {
    FreshRow(BalanceOf(k.balances, k.sales[i].educator), RowRead(k, i), k.sales[i]);
  }

  lemma SaveOrderly(k: Books, i: nat)
    requires OrderlyInv(k) && Enabled(k, Save(i)) && Fresh(k, i)
    ensures OrderlyInv(DoSave(k, i))
  {
    FreshSaveRaises(k, i);
    FreshRow(BalanceOf(k.balances, k.sales[i].educator), RowRead(k, i), k.sales[i]);
    RowsRise(k, DoSave(k, i));
  }

  lemma OtherSaleStepOrderly(k: Books, step: Step)
    requires OrderlyInv(k) && Enabled(k, step) && (step.ReadRow? || step.WriteEntry? || step.Collect?)
    ensures OrderlyInv(Apply(k, step))
  {
    RowsRise(k, Apply(k, step));
  }

  lemma MoveOrderly(k: Books, step: Step)
    requires OrderlyInv(k) && Orderly(k, step) && (step.Withdraw? || step.PayOut?)
    ensures OrderlyInv(Apply(k, step))
  {
  }

  lemma PlanOrderly(k: Books, b: string, e: string)
    requires OrderlyInv(k) && Orderly(k, Plan(b, e))
    ensures OrderlyInv(DoPlan(k, b, e))
  {
  }

  lemma BatchStepOrderly(k: Books, step: Step)
    requires OrderlyInv(k) && Orderly(k, step) && (step.Build? || step.Submit? || step.Fail?)
    ensures OrderlyInv(Apply(k, step))
  {
  }

  lemma {:induction false} PayAllClean(k: Books, rs: seq<Recipient>)
    requires Clean(k) && Distinct(rs) && CoversAll(k.balances, rs)
    ensures Clean(PayAll(k, rs)) && PayAll(k, rs).batches == k.batches
    decreases |rs|
  {
    if rs != [] {
      var front, last := rs[..|rs| - 1], rs[|rs| - 1];
      PayAllClean(k, front);
      PayAllFrame(k, front);
      assert !Pays(front, last.educator);
    }
  }

  lemma SettleOrderly(k: Books, b: string)
    requires OrderlyInv(k) && Orderly(k, Settle(b))
    ensures OrderlyInv(DoSettle(k, b))
  {
    var rs := k.batches[b].recipients;
    PayAllClean(k, rs);
    PayAllFrame(k, rs);
    OthersCovered(k, b, DoSettle(k, b));
  }

  /** Rows the batch does not pay are as before, so they still cover the other open batches. */
  lemma OthersCovered(k: Books, b: string, k': Books)
    requires OrderlyInv(k) && b in k.batches && k.batches[b].submissions > 0 && Clean(k')
    requires k'.batches ==
      k.batches[b := k.batches[b].(status := Confirmed, submissions := k.batches[b].submissions - 1)]
    requires forall e :: e in k.balances && !Pays(k.batches[b].recipients, e) ==>
      e in k'.balances && k'.balances[e] == k.balances[e]
    ensures OrderlyInv(k')
  {
  }

  lemma StepOrderly(k: Books, step: Step)
    requires OrderlyInv(k) && Orderly(k, step)
    ensures OrderlyInv(Apply(k, step))
  {
    if step.Settle? {
      SettleOrderly(k, step.batch);
    } else if step.Plan? {
      PlanOrderly(k, step.batch, step.educator);
    } else if step.Withdraw? || step.PayOut? {
      MoveOrderly(k, step);
    } else if step.Build? || step.Submit? || step.Fail? {
      BatchStepOrderly(k, step);
    } else if step.Save? {
      SaveOrderly(k, step.i);
    } else {
      OtherSaleStepOrderly(k, step);
    }
  }

  lemma {:induction false} OrderlyRunKeeps(k: Books, steps: seq<Step>)
    requires OrderlyInv(k) && OrderlyRun(k, steps)
    ensures Possible(k, steps) && OrderlyInv(Run(k, steps))
    decreases |steps|
  {
    if steps != [] {
      StepOrderly(k, steps[0]);
      OrderlyRunKeeps(Apply(k, steps[0]), steps[1..]);
    }
  }

  /** No sale of the educator is between its save and its entry. */
  predicate AllWritten(xs: seq<Sold>, educator: string) {
    forall i :: 0 <= i < |xs| && xs[i].educator == educator ==> !xs[i].progress.Saved?
  }

  lemma {:induction false} NothingUnlogged(c: seq<Sold> -> Balance, xs: seq<Sold>, educator: string)
    requires Tallies(c, educator, UnloggedBy) && AllWritten(xs, educator)
    ensures c(xs) == Balance(0, 0)
    decreases |xs|
  {
    if xs != [] {
      NothingUnlogged(c, xs[..|xs| - 1], educator);
      assert xs == xs[..|xs| - 1] + [xs[|xs| - 1]];
    }
  }

  lemma {:induction false} OrderlyAccount(k: Books, v: View)
    requires Counts(v) && Accurate(AccountOf(k, v)) && Clean(k)
    ensures var a := AccountOf(k, v);
      Sound(a) && (AllWritten(k.sales, v.educator) ==> (a.stored == a.computed <==> a.history.deducted == 0))
  {
    assert Gapless(HistoryOf(k.history, v.educator));
    if AllWritten(k.sales, v.educator) { NothingUnlogged(v.unlogged, k.sales, v.educator); }
  }

  lemma {:induction false} OrderlyRunFromEmpty(steps: seq<Step>, v: View)
    requires OrderlyRun(Empty, steps) && Counts(v)
    ensures Possible(Empty, steps)
    ensures Clean(Run(Empty, steps)) && Accurate(AccountOf(Run(Empty, steps), v))
  {
    OrderlyRunKeeps(Empty, steps);
    RunFromEmpty(steps, v);
  }

  /** The books are sound, and once every saved sale's entry is written, `entries` reconcile with the stored row if and
      only if nothing was deducted. */
  predicate ReconcilesUnlessDeducted(k: Books, educator: string, entries: seq<Entry>) {
    && Sound(AccountOf(k, ViewOf(educator)))
    && (multiset(entries) == multiset(EntriesOf(k.log, educator)) && AllWritten(k.sales, educator) ==>
          (BalanceOf(k.balances, educator) == Totals(entries) <==> HistoryOf(k.history, educator).deducted == 0))
  }

  lemma CleanBooksReconcile(k: Books, educator: string, entries: seq<Entry>)
    requires Clean(k) && Counts(ViewOf(educator)) && Accurate(AccountOf(k, ViewOf(educator)))
    ensures ReconcilesUnlessDeducted(k, educator, entries)
  {
    OrderlyAccount(k, ViewOf(educator));
    if multiset(entries) == multiset(EntriesOf(k.log, educator)) {
      TotalsIgnoreOrder(entries, EntriesOf(k.log, educator));
    }
  }

  /** Every orderly run is possible, and its entries reconcile, read in any order, unless something was deducted. */
  lemma {:induction false} OrderlyBooksReconcileExactlyWhen(steps: seq<Step>, educator: string, entries: seq<Entry>)
    requires OrderlyRun(Empty, steps)
    ensures Possible(Empty, steps)
    ensures ReconcilesUnlessDeducted(Run(Empty, steps), educator, entries)
  {
    ViewCounts(educator);
    OrderlyRunFromEmpty(steps, ViewOf(educator));
    CleanBooksReconcile(Run(Empty, steps), educator, entries);
  }

  predicate RepositoryMove(step: Step) { step.Collect? || step.Withdraw? || step.PayOut? }

  lemma {:induction false} RepositoryRunsAreOrderly(k: Books, steps: seq<Step>, educator: string)
    requires k.batches == map[] && AllWritten(k.sales, educator)
    requires forall i :: 0 <= i < |steps| ==> RepositoryMove(steps[i])
    ensures OrderlyRun(k, steps) && Possible(k, steps) && AllWritten(Run(k, steps).sales, educator)
    decreases |steps|
  {
    if steps != [] {
      assert RepositoryMove(steps[0]);
      RepositoryRunsAreOrderly(Apply(k, steps[0]), steps[1..], educator);
    }
  }

  /** With the repository's own moves alone, credits and settlements paired with their entries, the entries reconcile in
      every reachable state if and only if nothing was deducted. */
  lemma {:induction false} PairedBooksReconcileExactlyWhen(steps: seq<Step>, educator: string, entries: seq<Entry>)
    requires forall i :: 0 <= i < |steps| ==> RepositoryMove(steps[i])
    ensures Possible(Empty, steps)
    ensures var k := Run(Empty, steps);
      multiset(entries) == multiset(EntriesOf(k.log, educator)) ==>
        (BalanceOf(k.balances, educator) == Totals(entries) <==> HistoryOf(k.history, educator).deducted == 0)
  {
    RepositoryRunsAreOrderly(Empty, steps, educator);
    OrderlyBooksReconcileExactlyWhen(steps, educator, entries);
  }
}
