/** The on-chain verification job as it runs on the queue: its handler is a sequence of separate
    database and service calls, any of which may fail, and the process may crash between any two. */
module PaymentJob {
  import opened Options
  import opened JobQueue

  datatype TxStatus =
    | Pending | Submitted | Rechecking | Confirmed | Failed | Expired | Refunded | Disputed

  /** A transaction row; a checkout has no payment hash until it is submitted. `Rechecking` is the status
      "retrying". */
  datatype Tx = Tx(
    hash: Option<string>,
    donation: bool,
    hasCreator: bool,
    status: TxStatus,
    expiresAt: Option<int>,
    retryCount: nat)

  datatype Verdict = Verified | Rejected(transient: bool)

  /** The handler's next action. */
  datatype Phase =
    | Reading | Verifying
    | SavingConfirmed | SavingFailed | SavingRetry
    | Pledging | EarnChecking | EarnCrediting | EarnLogging | Granting
    | QueueingReceipt | Returned | Throwing

  /** The queue, the transaction rows by `_id`, the running verification handlers by ticket, and the sale entries of
      the ledger by reference. `hashes` and `credits` are history: the payment hash, if any yet, of every row ever
      stored, and how often a sale of it was credited to its creator. */
  datatype World = World(
    queue: State,
    txs: map<string, Tx>,
    phases: map<nat, Phase>,
    ledger: set<string>,
    hashes: map<string, Option<string>>,
    credits: map<string, nat>)

  const Begin := World(Init, map[], map[], {}, map[], map[])

  datatype Action =
    | QueueStep(step: Step)
    | Admit(x: string, tx: Tx)
    | Locate(x: string, hash: string)
    | Submit(x: string)
    | Reap(x: string)
    | Run(ticket: nat, verdict: Verdict)

  const VERIFY := "verifyPaymentOnChain"
  const RECEIPT := "generateReceipt"

  function VerifyKey(hash: string): string { "verify:" + hash }

  function ReceiptKey(hash: string): string { "receipt:" + hash }

  predicate TerminalStatus(s: TxStatus) {
    s.Confirmed? || s.Failed? || s.Expired? || s.Refunded? || s.Disputed?
  }

  /** The pre-save hook: a terminal row never keeps an expiry. */
  function PreSave(tx: Tx): Tx {
    if TerminalStatus(tx.status) then tx.(expiresAt := None) else tx
  }

  /** The partial TTL index: pending rows only. */
  predicate Reapable(tx: Tx, now: int) {
    tx.status.Pending? && tx.expiresAt.Some? && tx.expiresAt.value <= now
  }

  predicate Settled(tx: Tx) { tx.status.Confirmed? || tx.status.Failed? }

  function CreditsOf(w: World, x: string): nat {
    if x in w.credits then w.credits[x] else 0
  }

  /** `stellarTxHash || _id`. */
  function TxRef(x: string, tx: Tx): string {
    if tx.hash.None? || tx.hash.value == "" then x else tx.hash.value
  }

  predicate Located(hashes: map<string, Option<string>>, x: string) { x in hashes && hashes[x].Some? }

  /** The sparse unique index: no row carries the hash yet. */
  predicate HashFree(txs: map<string, Tx>, hash: Option<string>) {
    hash.Some? ==> forall y :: y in txs ==> txs[y].hash != hash
  }

  // ----- the handler ---------------------------------------------------------

  function ContextOf(w: World, t: nat): Context
    requires t in w.queue.claims
  {
    var doc := w.queue.claims[t].doc;
    Context(doc.attemptsMade, doc.maxAttempts)
  }

  function Subject(w: World, t: nat): string
    requires t in w.queue.claims
  {
    w.queue.claims[t].doc.payload
  }

  function AfterRead(w: World, x: string): Phase {
    if x !in w.txs || w.txs[x].status.Failed? then Returned
    else if w.txs[x].status.Confirmed? then QueueingReceipt
    else Verifying
  }

  function AfterVerdict(v: Verdict, c: Context): Phase {
    if v.Verified? then SavingConfirmed
    else if v.transient && c.attempt < c.maxAttempts then SavingRetry
    else SavingFailed
  }

  /** What the handler saves; saving a row that was reaped meanwhile throws. */
  function SavedRow(p: Phase, tx: Tx, c: Context): Tx {
    PreSave(match p
            case SavingConfirmed => tx.(status := TxStatus.Confirmed, expiresAt := None)
            case SavingFailed => tx.(status := TxStatus.Failed, expiresAt := None, retryCount := c.attempt)
            case _ => tx.(retryCount := c.attempt))
  }

  function AfterSave(p: Phase, tx: Tx): Phase {
    match p
    case SavingConfirmed => if tx.donation then Pledging else EarnChecking
    case SavingFailed => Returned
    case _ => Throwing
  }

  predicate Saving(p: Phase) { p.SavingConfirmed? || p.SavingFailed? || p.SavingRetry? }

  predicate Earning(p: Phase) { p.EarnChecking? || p.EarnCrediting? || p.EarnLogging? }

  function GoTo(w: World, t: nat, p: Phase): World { w.(phases := w.phases[t := p]) }

  function RunSave(w: World, t: nat): World
    requires t in w.phases && t in w.queue.claims
  {
    var x, c, p := Subject(w, t), ContextOf(w, t), w.phases[t];
    if x !in w.txs then GoTo(w, t, Throwing)
    else GoTo(w.(txs := w.txs[x := SavedRow(p, w.txs[x], c)]), t, AfterSave(p, w.txs[x]))
  }

  /** `recordSaleEarnings`: look for a sale entry, credit the balance, write the entry, each a separate call. */
  function RunEarn(w: World, t: nat): World
    requires t in w.phases && t in w.queue.claims
  {
    var x := Subject(w, t);
    match w.phases[t]
    case EarnChecking =>
      var skip := x !in w.txs || TxRef(x, w.txs[x]) in w.ledger || !w.txs[x].hasCreator;
      GoTo(w, t, if skip then Granting else EarnCrediting)
    case EarnCrediting =>
      GoTo(w.(credits := w.credits[x := CreditsOf(w, x) + 1]), t, EarnLogging)
    case _ =>
      GoTo(w.(ledger := if x in w.txs then w.ledger + {TxRef(x, w.txs[x])} else w.ledger), t, Granting)
  }

  /** The upsert on `receipt:<hash>`, refused while the queue shuts down. */
  function RunReceipt(w: World, t: nat): World
    requires t in w.phases && t in w.queue.claims
  {
    var x := Subject(w, t);
    if !w.queue.accepting || !Located(w.hashes, x) then GoTo(w, t, Throwing)
    else GoTo(w.(queue := DoEnqueue(w.queue, RECEIPT, x, 5, 1000, ReceiptKey(w.hashes[x].value))), t, Returned)
  }

  /** One atomic action of a handler in flight. */
  function RunHandler(w: World, t: nat, v: Verdict): World
    requires t in w.phases && t in w.queue.claims
  {
    var p := w.phases[t];
    if Saving(p) then RunSave(w, t)
    else if Earning(p) then RunEarn(w, t)
    else
      match p
      case Reading => GoTo(w, t, AfterRead(w, Subject(w, t)))
      case Verifying => GoTo(w, t, AfterVerdict(v, ContextOf(w, t)))
      case Pledging => GoTo(w, t, QueueingReceipt)
      case Granting => GoTo(w, t, QueueingReceipt)
      case QueueingReceipt => RunReceipt(w, t)
      case _ => w
  }

  // ----- steps of the world --------------------------------------------------

  /** The queue's own steps; verification and receipt jobs are enqueued only by `Submit` and by the handler,
      and a verification handler completes only by returning. */
  predicate QueueStepEnabled(w: World, step: Step) {
    && Enabled(w.queue, step) && OneWorker(w.queue, step)
    && (step.Enqueue? ==> step.name != VERIFY && step.name != RECEIPT)
    && (step.Succeed? && step.ticket in w.phases ==> w.phases[step.ticket].Returned?)
  }

  function PhasesAfter(w: World, step: Step): map<nat, Phase> {
    match step
    case Poll(pick) =>
      if pick in w.queue.jobs && w.queue.jobs[pick].name == VERIFY
      then w.phases[w.queue.nextTicket := Reading] else w.phases
    case Succeed(t) => w.phases - {t}
    case Fail(t, _) => w.phases - {t}
    case Abandon(t) => w.phases - {t}
    case Crash => map[]
    case _ => w.phases
  }

  predicate Can(w: World, a: Action) {
    match a
    case QueueStep(step) => QueueStepEnabled(w, step)
    case Admit(x, tx) =>
      x !in w.hashes && tx == PreSave(tx) && HashFree(w.txs, tx.hash)
    case Locate(x, hash) =>
      x in w.txs && w.txs[x].hash.None? && !TerminalStatus(w.txs[x].status) && HashFree(w.txs, Some(hash))
    case Submit(x) => x in w.txs && w.txs[x].hash.Some?
    case Reap(x) => x in w.txs && Reapable(w.txs[x], w.queue.now)
    case Run(t, _) => t in w.phases && t in w.queue.claims && !w.phases[t].Returned? && !w.phases[t].Throwing?
  }

  function Do(w: World, a: Action): World
    requires Can(w, a)
  {
    match a
    case QueueStep(step) => w.(queue := Apply(w.queue, step), phases := PhasesAfter(w, step))
    case Admit(x, tx) => w.(txs := w.txs[x := tx], hashes := w.hashes[x := tx.hash])
    case Locate(x, hash) =>
      w.(txs := w.txs[x := w.txs[x].(hash := Some(hash))], hashes := w.hashes[x := Some(hash)])
    case Submit(x) => w.(queue := DoEnqueue(w.queue, VERIFY, x, 5, 1000, VerifyKey(w.txs[x].hash.value)))
    case Reap(x) => w.(txs := w.txs - {x})
    case Run(t, v) => RunHandler(w, t, v)
  }

  predicate Possible(w: World, actions: seq<Action>)
    decreases |actions|
  {
    actions != [] ==> Can(w, actions[0]) && Possible(Do(w, actions[0]), actions[1..])
  }

  function Outcome(w: World, actions: seq<Action>): World
    requires Possible(w, actions)
    decreases |actions|
  {
    if actions == [] then w else Outcome(Do(w, actions[0]), actions[1..])
  }
}
