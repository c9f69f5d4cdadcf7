/** The payout service over the educator balances and the entry log. Recording a sale reads the row, saves it and writes
    the entry in separate calls, so recordings overlap; a batch plans payouts from the rows it reads and settles them
    later, in one transaction. */
module Payouts {
  import opened Options
  import opened Ledger

  /** How far a sale is recorded: the educator's row, if any, is read; the balance is saved; the entry is written; or
      the save failed, another call having created the row meanwhile. */
  datatype Progress = Read(row: Option<Balance>) | Saved | Recorded | Failed

  datatype Sold = Sold(educator: string, amount: nat, settlement: Settlement, progress: Progress)

  datatype Recipient = Recipient(educator: string, amount: int)

  datatype Status = Draft | Built | Confirmed

  datatype Batch = Batch(recipients: seq<Recipient>, status: Status, submissions: nat)

  /** What happened to one educator: what was deducted, what payouts took beyond what was owed, what was paid without a
      row, and by how much saves missed adding their amount to the row they met. */
  datatype History = History(deducted: int, overdrawn: int, unbacked: int, missedOwed: int, missedSettled: int)

  datatype Books = Books(
    balances: Balances,
    log: Log,
    sales: seq<Sold>,
    batches: map<string, Batch>,
    history: map<string, History>)

  const Empty := Books(map[], map[], [], map[], map[])

  /** The three calls of a recording; the repository's own moves, a credit and a settlement with their entries; and a
      batch: planning a recipient, storing it, a submission, and its settlement or failure. */
  datatype Step =
    | ReadRow(educator: string, net: nat, settlement: Settlement)
    | Save(i: nat)
    | WriteEntry(i: nat)
    | Collect(educator: string, amount: int)
    | Withdraw(educator: string, amount: int)
    | PayOut(educator: string, amount: int)
    | Plan(batch: string, educator: string)
    | Build(batch: string)
    | Submit(batch: string)
    | Settle(batch: string)
    | Fail(batch: string)

  const NoHistory := History(0, 0, 0, 0, 0)

  function HistoryOf(h: map<string, History>, educator: string): History {
    if educator in h then h[educator] else NoHistory
  }

  function Minus(a: Balance, b: Balance): Balance { Balance(a.owed - b.owed, a.settled - b.settled) }

  // ----- recording a sale ----------------------------------------------------

  function EntryOf(x: Sold): Entry { Sale(x.settlement, x.amount) }

  function Field(row: Balance, settlement: Settlement): int {
    if settlement.PlatformCollect? then row.owed else row.settled
  }

  /** A save writes the field it changed, computed from the row it read, and nothing when the field is unchanged. */
  function SavedRow(row: Balance, read: Balance, x: Sold): Balance {
    if x.amount == 0 then row
    else if x.settlement.PlatformCollect? then row.(owed := read.owed + x.amount)
    else row.(settled := read.settled + x.amount)
  }

  /** By how much the owed balance saved is off from the row's own plus the amount. */
  function MissedOwed(row: Balance, read: Balance, x: Sold): int {
    if x.amount > 0 && x.settlement.PlatformCollect? then read.owed - row.owed else 0
  }

  function MissedSettled(row: Balance, read: Balance, x: Sold): int {
    if x.amount > 0 && !x.settlement.PlatformCollect? then read.settled - row.settled else 0
  }

  function WithMissed(h: History, row: Balance, read: Balance, x: Sold): History {
    h.(missedOwed := h.missedOwed + MissedOwed(row, read, x),
       missedSettled := h.missedSettled + MissedSettled(row, read, x))
  }

  function DoRead(k: Books, educator: string, amount: nat, settlement: Settlement): Books {
    var row := if educator in k.balances then Some(k.balances[educator]) else None;
    k.(sales := k.sales + [Sold(educator, amount, settlement, Read(row))])
  }

  /** A sale that read no row inserts one, which the unique index refuses when there is one by now. */
  function DoSave(k: Books, i: nat): Books
    requires i < |k.sales| && k.sales[i].progress.Read?
  {
    var x, row := k.sales[i], BalanceOf(k.balances, k.sales[i].educator);
    if x.progress.row.None? && x.educator in k.balances then
      k.(sales := k.sales[i := x.(progress := Failed)])
    else
      var read := x.progress.row.GetOr(row);
      k.(balances := k.balances[x.educator := SavedRow(row, read, x)],
         sales := k.sales[i := x.(progress := Saved)],
         history := k.history[x.educator := WithMissed(HistoryOf(k.history, x.educator), row, read, x)])
  }

  function DoWriteEntry(k: Books, i: nat): Books
    requires i < |k.sales|
  {
    var x := k.sales[i];
    k.(log := Enter(k.log, x.educator, EntryOf(x)), sales := k.sales[i := x.(progress := Recorded)])
  }

  // ----- the repository's moves ----------------------------------------------

  function DoCollect(k: Books, educator: string, n: int): Books {
    var (move, b) := Credit(k.balances, educator, n);
    if !move.Moved? then k
    else k.(balances := b,
            log := Enter(k.log, educator, Sale(PlatformCollect, n)),
            sales := k.sales + [Sold(educator, n, PlatformCollect, Recorded)])
  }

  function DoWithdraw(k: Books, educator: string, n: int): Books {
    var (move, b) := Deduct(k.balances, educator, n);
    var h := HistoryOf(k.history, educator);
    if !move.Moved? then k
    else k.(balances := b, history := k.history[educator := h.(deducted := h.deducted + n)])
  }

  function DoPayOut(k: Books, educator: string, n: int): Books {
    var (move, b) := SettleOwed(k.balances, educator, n);
    if !move.Moved? then k else k.(balances := b, log := Enter(k.log, educator, Payout(n)))
  }

  // ----- batches -------------------------------------------------------------

  function BatchOf(k: Books, b: string): Batch {
    if b in k.batches then k.batches[b] else Batch([], Draft, 0)
  }

  predicate Pays(rs: seq<Recipient>, educator: string) { exists i :: 0 <= i < |rs| && rs[i].educator == educator }

  function DoPlan(k: Books, b: string, educator: string): Books {
    var batch := BatchOf(k, b);
    var r := Recipient(educator, BalanceOf(k.balances, educator).owed);
    k.(batches := k.batches[b := batch.(recipients := batch.recipients + [r])])
  }

  /** Owed balances do not go below zero; the settled balance rises by the whole amount. */
  function PaidRow(row: Balance, n: int): Balance {
    Balance(if row.owed >= n then row.owed - n else 0, row.settled + n)
  }

  function Shortfall(row: Balance, n: int): int { if row.owed >= n then 0 else n - row.owed }

  /** One recipient of a settlement: the entry is written whether or not there is a row. */
  function PayTo(k: Books, r: Recipient): Books {
    var e, n, h := r.educator, r.amount, HistoryOf(k.history, r.educator);
    var log := Enter(k.log, e, Payout(n));
    if e in k.balances then
      k.(balances := k.balances[e := PaidRow(k.balances[e], n)], log := log,
         history := k.history[e := h.(overdrawn := h.overdrawn + Shortfall(k.balances[e], n))])
    else
      k.(log := log, history := k.history[e := h.(unbacked := h.unbacked + n)])
  }

  function PayAll(k: Books, rs: seq<Recipient>): Books {
    if rs == [] then k else PayTo(PayAll(k, rs[..|rs| - 1]), rs[|rs| - 1])
  }

  function DoSettle(k: Books, b: string): Books
    requires b in k.batches && k.batches[b].submissions > 0
  {
    var batch := k.batches[b];
    PayAll(k, batch.recipients)
      .(batches := k.batches[b := batch.(status := Confirmed, submissions := batch.submissions - 1)])
  }

  /** A failed submission, or an aborted settlement, puts the batch back to `built`. */
  function DoFail(k: Books, b: string): Books
    requires b in k.batches && k.batches[b].submissions > 0
  {
    var batch := k.batches[b];
    k.(batches := k.batches[b := batch.(status := Built, submissions := batch.submissions - 1)])
  }

  // ----- runs ----------------------------------------------------------------

  predicate Enabled(k: Books, step: Step) {
    match step
    case ReadRow(e, _, _) => e != ""
    case Save(i) => i < |k.sales| && k.sales[i].progress.Read?
    case WriteEntry(i) => i < |k.sales| && k.sales[i].progress.Saved?
    case Plan(b, e) =>
      BatchOf(k, b).status.Draft? && !Pays(BatchOf(k, b).recipients, e) && BalanceOf(k.balances, e).owed > 0
    case Build(b) => b in k.batches && k.batches[b].status.Draft?
    case Submit(b) => b in k.batches && k.batches[b].status.Built?
    case Settle(b) => b in k.batches && k.batches[b].submissions > 0
    case Fail(b) => b in k.batches && k.batches[b].submissions > 0
    case _ => true
  }

  function Apply(k: Books, step: Step): Books
    requires Enabled(k, step)
  {
    match step
    case ReadRow(e, n, settlement) => DoRead(k, e, n, settlement)
    case Save(i) => DoSave(k, i)
    case WriteEntry(i) => DoWriteEntry(k, i)
    case Collect(e, n) => DoCollect(k, e, n)
    case Withdraw(e, n) => DoWithdraw(k, e, n)
    case PayOut(e, n) => DoPayOut(k, e, n)
    case Plan(b, e) => DoPlan(k, b, e)
    case Build(b) => k.(batches := k.batches[b := k.batches[b].(status := Built)])
    case Submit(b) => k.(batches := k.batches[b := k.batches[b].(submissions := k.batches[b].submissions + 1)])
    case Settle(b) => DoSettle(k, b)
    case Fail(b) => DoFail(k, b)
  }

  predicate Possible(k: Books, steps: seq<Step>)
    decreases |steps|
  {
    steps != [] ==> Enabled(k, steps[0]) && Possible(Apply(k, steps[0]), steps[1..])
  }

  function Run(k: Books, steps: seq<Step>): Books
    requires Possible(k, steps)
    decreases |steps|
  {
    if steps == [] then k else Run(Apply(k, steps[0]), steps[1..])
  }

  // ----- sums over the sales -------------------------------------------------

  /** A sale counts as credited once it is saved, and as unlogged until its entry is written. */
  function CreditedBy(x: Sold): Balance {
    if x.progress.Saved? || x.progress.Recorded? then Effect(EntryOf(x)) else Balance(0, 0)
  }

  function UnloggedBy(x: Sold): Balance {
    if x.progress.Saved? then Effect(EntryOf(x)) else Balance(0, 0)
  }

  function Share(x: Sold, educator: string, f: Sold -> Balance): Balance {
    if x.educator == educator then f(x) else Balance(0, 0)
  }

  function Sum(xs: seq<Sold>, educator: string, f: Sold -> Balance): Balance {
    if xs == [] then Balance(0, 0)
    else Plus(Sum(xs[..|xs| - 1], educator, f), Share(xs[|xs| - 1], educator, f))
  }

  /** What the proofs below need of a sum: it starts at zero and adds each sale's share. */
  ghost predicate Tallies(c: seq<Sold> -> Balance, educator: string, f: Sold -> Balance) {
    && c([]) == Balance(0, 0)
    && forall xs, x {:trigger c(xs + [x])} :: c(xs + [x]) == Plus(c(xs), Share(x, educator, f))
  }

  function SumFor(educator: string, f: Sold -> Balance): seq<Sold> -> Balance {
    (xs: seq<Sold>) => Sum(xs, educator, f)
  }

  lemma SumTallies(educator: string, f: Sold -> Balance)
    ensures Tallies(SumFor(educator, f), educator, f)
  {
    forall xs: seq<Sold>, x ensures Sum(xs + [x], educator, f) == Plus(Sum(xs, educator, f), Share(x, educator, f)) {
      assert (xs + [x])[..|xs|] == xs;
    }
  }

  lemma {:induction false} TallyUpdate(c: seq<Sold> -> Balance, xs: seq<Sold>, i: nat, x: Sold, educator: string,
      f: Sold -> Balance)
    requires Tallies(c, educator, f) && i < |xs|
    ensures c(xs[i := x]) == Plus(c(xs), Minus(Share(x, educator, f), Share(xs[i], educator, f)))
    decreases |xs|
  {
    var front, last := xs[..|xs| - 1], xs[|xs| - 1];
    assert xs == front + [last];
    if i < |front| {
      TallyUpdate(c, front, i, x, educator, f);
      assert xs[i := x] == front[i := x] + [last];
    } else {
      assert xs[i := x] == front + [x];
    }
  }

  // ----- one educator's account ----------------------------------------------

  datatype Account = Account(stored: Balance, computed: Balance, credited: Balance, unlogged: Balance, history: History)

  /** An educator, and how entries and sales are added up. */
  datatype View = View(
    educator: string,
    totals: seq<Entry> -> Balance,
    credited: seq<Sold> -> Balance,
    unlogged: seq<Sold> -> Balance)

  ghost predicate Counts(v: View) {
    Adds(v.totals) && Tallies(v.credited, v.educator, CreditedBy) && Tallies(v.unlogged, v.educator, UnloggedBy)
  }

  function ViewOf(educator: string): View {
    View(educator, Totals, SumFor(educator, CreditedBy), SumFor(educator, UnloggedBy))
  }

  lemma ViewCounts(educator: string)
    ensures Counts(ViewOf(educator))
  {
    TotalsAdds();
    SumTallies(educator, CreditedBy);
    SumTallies(educator, UnloggedBy);
  }

  function AccountOf(k: Books, v: View): Account {
    Account(BalanceOf(k.balances, v.educator), v.totals(EntriesOf(k.log, v.educator)), v.credited(k.sales),
            v.unlogged(k.sales), HistoryOf(k.history, v.educator))
  }

  /** Money is conserved but for overdrawn payouts and missed amounts, and the entries are off the stored balances by
      exactly the deductions, the overdrawn and unbacked payouts, the missed amounts and the entries not written. */
  predicate Accurate(a: Account) {
    var h := a.history;
    && a.stored.owed + a.stored.settled ==
         a.credited.owed + a.credited.settled - h.deducted + h.overdrawn + h.missedOwed + h.missedSettled
    && a.computed.owed == a.stored.owed + h.deducted - h.overdrawn - h.unbacked - h.missedOwed - a.unlogged.owed
    && a.computed.settled == a.stored.settled + h.unbacked - h.missedSettled - a.unlogged.settled
  }

  lemma ReadPosts(k: Books, e: string, n: nat, settlement: Settlement, v: View)
    requires Counts(v)
    ensures AccountOf(DoRead(k, e, n, settlement), v) == AccountOf(k, v)
  {
    var x := DoRead(k, e, n, settlement).sales[|k.sales|];
    assert DoRead(k, e, n, settlement).sales == k.sales + [x];
    assert Share(x, v.educator, CreditedBy) == Share(x, v.educator, UnloggedBy) == Balance(0, 0);
  }

  /** What a save does to its educator's account. */
  function SaveOn(a: Account, x: Sold, read: Balance): Account {
    var e := Effect(EntryOf(x));
    a.(stored := SavedRow(a.stored, read, x), credited := Plus(a.credited, e), unlogged := Plus(a.unlogged, e),
       history := WithMissed(a.history, a.stored, read, x))
  }

  lemma SavedRowAdds(row: Balance, read: Balance, x: Sold)
    ensures SavedRow(row, read, x).owed == row.owed + Effect(EntryOf(x)).owed + MissedOwed(row, read, x)
    ensures SavedRow(row, read, x).settled == row.settled + Effect(EntryOf(x)).settled + MissedSettled(row, read, x)
  {
  }

  lemma SaveAccurate(a: Account, x: Sold, read: Balance)
    requires Accurate(a)
    ensures Accurate(SaveOn(a, x, read))
  {
    SavedRowAdds(a.stored, read, x);
  }

  predicate Collides(k: Books, i: nat)
    requires i < |k.sales| && k.sales[i].progress.Read?
  {
    k.sales[i].progress.row.None? && k.sales[i].educator in k.balances
  }

  function RowRead(k: Books, i: nat): Balance
    requires i < |k.sales| && k.sales[i].progress.Read?
  {
    k.sales[i].progress.row.GetOr(BalanceOf(k.balances, k.sales[i].educator))
  }

  /** A sale's progress as the sums see it. */
  lemma ProgressPosts(xs: seq<Sold>, i: nat, progress: Progress, v: View)
    requires Counts(v) && i < |xs|
    ensures var x, x' := xs[i], xs[i].(progress := progress); var xs' := xs[i := x'];
      && v.credited(xs') == (if x.educator != v.educator then v.credited(xs)
                             else Plus(v.credited(xs), Minus(CreditedBy(x'), CreditedBy(x))))
      && v.unlogged(xs') == (if x.educator != v.educator then v.unlogged(xs)
                             else Plus(v.unlogged(xs), Minus(UnloggedBy(x'), UnloggedBy(x))))
  {
    var x' := xs[i].(progress := progress);
    TallyUpdate(v.credited, xs, i, x', v.educator, CreditedBy);
    TallyUpdate(v.unlogged, xs, i, x', v.educator, UnloggedBy);
  }

  lemma SavePosts(k: Books, i: nat, v: View)
    requires Counts(v) && i < |k.sales| && k.sales[i].progress.Read?
    ensures AccountOf(DoSave(k, i), v) ==
      if Collides(k, i) || v.educator != k.sales[i].educator then AccountOf(k, v)
      else SaveOn(AccountOf(k, v), k.sales[i], RowRead(k, i))
  {
    ProgressPosts(k.sales, i, if Collides(k, i) then Failed else Saved, v);
  }

  lemma WriteEntryPosts(k: Books, i: nat, v: View)
    requires Counts(v) && i < |k.sales| && k.sales[i].progress.Saved?
    ensures var a, e := AccountOf(k, v), Effect(EntryOf(k.sales[i]));
      AccountOf(DoWriteEntry(k, i), v) ==
        if v.educator != k.sales[i].educator then a
        else a.(computed := Plus(a.computed, e), unlogged := Minus(a.unlogged, e))
  {
    var x' := DoWriteEntry(k, i).sales[i];
    EnterAdds(k.log, x'.educator, EntryOf(x'), v.educator, v.totals);
    ProgressPosts(k.sales, i, Recorded, v);
  }

  lemma CollectPosts(k: Books, e: string, n: int, v: View)
    requires Counts(v)
    ensures var a, more := AccountOf(k, v), Balance(n, 0);
      AccountOf(DoCollect(k, e, n), v) ==
        if v.educator != e || e == "" || n <= 0 then a
        else a.(stored := Plus(a.stored, more), computed := Plus(a.computed, more), credited := Plus(a.credited, more))
  {
    if e != "" && n > 0 {
      var x := Sold(e, n, PlatformCollect, Recorded);
      EnterAdds(k.log, e, EntryOf(x), v.educator, v.totals);

    }
  }

  lemma WithdrawPosts(k: Books, e: string, n: int, v: View)
    ensures var a := AccountOf(k, v);
      AccountOf(DoWithdraw(k, e, n), v) ==
        if v.educator != e || !Deduct(k.balances, e, n).0.Moved? then a
        else a.(stored := Minus(a.stored, Balance(n, 0)),
                history := a.history.(deducted := a.history.deducted + n))
  {
  }

  lemma PayOutPosts(k: Books, e: string, n: int, v: View)
    requires Counts(v)
    ensures var a, moved := AccountOf(k, v), Balance(-n, n);
      AccountOf(DoPayOut(k, e, n), v) ==
        if v.educator != e || !SettleOwed(k.balances, e, n).0.Moved? then a
        else a.(stored := Plus(a.stored, moved), computed := Plus(a.computed, moved))
  {
    EnterAdds(k.log, e, Payout(n), v.educator, v.totals);
  }

  /** What paying a recipient does to the recipient's account. */
  function PayOn(a: Account, present: bool, n: int): Account {
    var paid, h := a.(computed := Plus(a.computed, Balance(-n, n))), a.history;
    if present then
      paid.(stored := PaidRow(a.stored, n), history := h.(overdrawn := h.overdrawn + Shortfall(a.stored, n)))
    else paid.(history := h.(unbacked := h.unbacked + n))
  }

  lemma PayToPosts(k: Books, r: Recipient, v: View)
    requires Counts(v)
    ensures AccountOf(PayTo(k, r), v) ==
      if v.educator != r.educator then AccountOf(k, v)
      else PayOn(AccountOf(k, v), r.educator in k.balances, r.amount)
  {
    EnterAdds(k.log, r.educator, Payout(r.amount), v.educator, v.totals);
  }

  lemma {:induction false} PayAllAccurate(k: Books, rs: seq<Recipient>, v: View)
    requires Counts(v) && Accurate(AccountOf(k, v))
    ensures Accurate(AccountOf(PayAll(k, rs), v))
    decreases |rs|
  {
    if rs != [] {
      PayAllAccurate(k, rs[..|rs| - 1], v);
      PayToPosts(PayAll(k, rs[..|rs| - 1]), rs[|rs| - 1], v);
    }
  }

  lemma StepAccurate(k: Books, step: Step, v: View)
    requires Counts(v) && Enabled(k, step) && Accurate(AccountOf(k, v))
    ensures Accurate(AccountOf(Apply(k, step), v))
  {
    match step
    case ReadRow(e, n, settlement) => ReadPosts(k, e, n, settlement, v);
    case Save(i) =>
      SavePosts(k, i, v);
      if v.educator == k.sales[i].educator { SaveAccurate(AccountOf(k, v), k.sales[i], RowRead(k, i)); }
    case WriteEntry(i) => WriteEntryPosts(k, i, v);
    case Collect(e, n) => CollectPosts(k, e, n, v);
    case Withdraw(e, n) => WithdrawPosts(k, e, n, v);
    case PayOut(e, n) => PayOutPosts(k, e, n, v);
    case Settle(b) =>
      PayAllAccurate(k, k.batches[b].recipients, v);
      assert AccountOf(DoSettle(k, b), v) == AccountOf(PayAll(k, k.batches[b].recipients), v);
    case _ => assert AccountOf(Apply(k, step), v) == AccountOf(k, v);
  }

  // ----- nothing goes below zero ---------------------------------------------

  predicate NonNegative(b: Balance) { b.owed >= 0 && b.settled >= 0 }

  predicate Distinct(rs: seq<Recipient>) {
    forall i, j :: 0 <= i < j < |rs| ==> rs[i].educator != rs[j].educator
  }

  /** Rows and what recordings have read are not negative, and a batch pays each educator at most once, more than
      nothing. */
  ghost predicate Solvent(k: Books) {
    && (forall e :: e in k.balances ==> NonNegative(k.balances[e]))
    && (forall i :: 0 <= i < |k.sales| && k.sales[i].progress.Read? && k.sales[i].progress.row.Some? ==>
          NonNegative(k.sales[i].progress.row.value))
    && (forall b :: b in k.batches ==> Payable(k.batches[b].recipients) && Distinct(k.batches[b].recipients))
  }

  predicate Payable(rs: seq<Recipient>) { forall i :: 0 <= i < |rs| ==> rs[i].amount > 0 }

  lemma {:induction false} PayAllSolvent(k: Books, rs: seq<Recipient>)
    requires Solvent(k) && Payable(rs)
    ensures Solvent(PayAll(k, rs)) && PayAll(k, rs).batches == k.batches && PayAll(k, rs).sales == k.sales
    decreases |rs|
  {
    if rs != [] { PayAllSolvent(k, rs[..|rs| - 1]); }
  }

  lemma SaveSolvent(k: Books, i: nat)
    requires Solvent(k) && i < |k.sales| && k.sales[i].progress.Read?
    ensures Solvent(DoSave(k, i))
  {
  }

  lemma BatchStepSolvent(k: Books, step: Step)
    requires Enabled(k, step) && Solvent(k) && (step.Plan? || step.Build? || step.Submit? || step.Fail?)
    ensures Solvent(Apply(k, step))
  {
  }

  lemma StepSolvent(k: Books, step: Step)
    requires Enabled(k, step) && Solvent(k)
    ensures Solvent(Apply(k, step))
  {
    if step.Settle? {
      PayAllSolvent(k, k.batches[step.batch].recipients);
    } else if step.Save? {
      SaveSolvent(k, step.i);
    } else if step.Plan? || step.Build? || step.Submit? || step.Fail? {
      BatchStepSolvent(k, step);
    }
  }

  // ----- every run -----------------------------------------------------------

  lemma {:induction false} RunAccurate(k: Books, steps: seq<Step>, v: View)
    requires Counts(v) && Possible(k, steps) && Solvent(k) && Accurate(AccountOf(k, v))
    ensures Solvent(Run(k, steps)) && Accurate(AccountOf(Run(k, steps), v))
    decreases |steps|
  {
    if steps != [] {
      StepSolvent(k, steps[0]);
      StepAccurate(k, steps[0], v);
      RunAccurate(Apply(k, steps[0]), steps[1..], v);
    }
  }

  /** What an accurate account says of reconciliation. */
  predicate Reconciled(a: Account, totals: Balance) {
    var h := a.history;
    && NonNegative(a.stored)
    && a.stored.owed + a.stored.settled ==
         a.credited.owed + a.credited.settled - h.deducted + h.overdrawn + h.missedOwed + h.missedSettled
    && (a.stored == totals <==>
          && h.deducted == a.unlogged.owed + h.overdrawn + h.unbacked + h.missedOwed
          && h.unbacked == a.unlogged.settled + h.missedSettled)
  }

  lemma EmptyIsAccurate(v: View)
    requires Counts(v)
    ensures Solvent(Empty) && Accurate(AccountOf(Empty, v))
  {
  }

  lemma {:induction false} RunFromEmpty(steps: seq<Step>, v: View)
    requires Possible(Empty, steps) && Counts(v)
    ensures Solvent(Run(Empty, steps)) && Accurate(AccountOf(Run(Empty, steps), v))
  {
    EmptyIsAccurate(v);
    RunAccurate(Empty, steps, v);
  }

  lemma AccurateReconciles(k: Books, v: View)
    requires Solvent(k) && Accurate(AccountOf(k, v))
    ensures Reconciled(AccountOf(k, v), v.totals(EntriesOf(k.log, v.educator)))
  {
  }

  /** In every run, overlapped recordings, crashes and payouts of several batches included: both balances stay
      non-negative, their sum is what was credited less what was deducted, but for overdrawn payouts and missed amounts,
      and the entries, read in any order, reconcile with the stored row exactly as `Reconciled` says. */
  lemma {:induction false} ReconcilesExactlyWhen(steps: seq<Step>, educator: string, entries: seq<Entry>)
    requires Possible(Empty, steps)
    requires multiset(entries) == multiset(EntriesOf(Run(Empty, steps).log, educator))
    ensures Reconciled(AccountOf(Run(Empty, steps), ViewOf(educator)), Totals(entries))
  {
    ViewCounts(educator);
    RunFromEmpty(steps, ViewOf(educator));
    AccurateReconciles(Run(Empty, steps), ViewOf(educator));
    TotalsIgnoreOrder(entries, EntriesOf(Run(Empty, steps).log, educator));
  }

  // ----- the service ---------------------------------------------------------

  /** The two collections as the service's calls update them. */
  class Service {
    var balances: Balances
    var log: Log

    constructor ()
      ensures balances == map[] && log == map[]
    {
      balances, log := map[], map[];
    }

    function AsBooks(): Books
      reads this
    {
      Books(balances, log, [], map[], map[])
    }

    /** `recordSaleEarnings` in a transaction of its own: the three calls with nothing in between. */
    method RecordSale(educator: string, amount: nat, settlement: Settlement) returns (done: bool)
      modifies this
      ensures done <==> educator != ""
      ensures !done ==> AsBooks() == old(AsBooks())
      ensures done ==>
        && balances ==
             old(balances)[educator := Plus(BalanceOf(old(balances), educator), Effect(Sale(settlement, amount)))]
        && log == Enter(old(log), educator, Sale(settlement, amount))
    {
      if educator == "" { return false; }
      var row := if educator in balances then balances[educator] else Balance(0, 0);
      if settlement.PlatformCollect? {
        row := row.(owed := row.owed + amount);
      } else {
        row := row.(settled := row.settled + amount);
      }
      balances := balances[educator := row];
      log := Enter(log, educator, Sale(settlement, amount));
      done := true;
    }

    /** The settlement loop of `submitPayoutBatch`. */
    method SettleBatch(recipients: seq<Recipient>)
      modifies this
      ensures var paid := PayAll(old(AsBooks()), recipients); balances == paid.balances && log == paid.log
    {
      ghost var was := AsBooks();
      var i := 0;
      while i < |recipients|
        invariant 0 <= i <= |recipients|
        invariant var paid := PayAll(was, recipients[..i]); balances == paid.balances && log == paid.log
      {
        var r := recipients[i];
        assert recipients[..i + 1][..i] == recipients[..i];
        if r.educator in balances {
          var row := balances[r.educator];
          var newOwed := if row.owed >= r.amount then row.owed - r.amount else 0;
          balances := balances[r.educator := Balance(newOwed, row.settled + r.amount)];
        }
        log := Enter(log, r.educator, Payout(r.amount));
        i := i + 1;
      }
      assert recipients[..i] == recipients;
    }
  }
}
