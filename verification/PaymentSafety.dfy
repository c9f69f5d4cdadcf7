/** Earnings and receipts happen at most once, whatever the retries and crashes. */
module PaymentSafety {
  import opened Options
  import opened JobQueue
  import opened JobQueueSafety
  import opened PaymentJob

  // ----- what queue steps do to rows' identities -----------------------------

  predicate SameIdentity(a: Job, b: Job) {
    a.name == b.name && a.payload == b.payload && a.key == b.key && a.maxAttempts == b.maxAttempts
  }

  ghost predicate RowsFrame(s: State, s': State, step: Step) {
    && (forall id :: id in s.jobs ==> id in s'.jobs && SameIdentity(s.jobs[id], s'.jobs[id]))
    && (forall id :: id in s'.jobs && id !in s.jobs ==>
          step.Enqueue? && s'.jobs[id].name == step.name)
  }

  predicate Releases(step: Step, t: nat) {
    step.Crash? || ((step.Succeed? || step.Fail? || step.Abandon?) && step.ticket == t)
  }

  ghost predicate ClaimsFrame(s: State, s': State, step: Step) {
    && (forall t :: t in s.claims && !Releases(step, t) ==> t in s'.claims && s'.claims[t] == s.claims[t])
    && (forall t :: t in s'.claims && t !in s.claims ==> step.Poll? && t == s.nextTicket)
    && (step.Poll? ==>
          && step.pick in s.jobs && s.nextTicket in s'.claims
          && SameIdentity(s'.claims[s.nextTicket].doc, s.jobs[step.pick]))
  }

  lemma StepRowsFrame(s: State, step: Step)
    requires Numbered(s) && Enabled(s, step)
    ensures RowsFrame(s, Apply(s, step), step)
  {
  }

  lemma StepClaimsFrame(s: State, step: Step)
    requires Numbered(s) && Enabled(s, step)
    ensures ClaimsFrame(s, Apply(s, step), step)
  {
  }

  // ----- the invariant -------------------------------------------------------

  /** Verification and receipt rows carry the key of their transaction's payment hash. */
  predicate KeyedByHash(j: Job, hashes: map<string, Option<string>>) {
    && (j.name == VERIFY ==> Located(hashes, j.payload) && j.key == VerifyKey(hashes[j.payload].value))
    && (j.name == RECEIPT ==> Located(hashes, j.payload) && j.key == ReceiptKey(hashes[j.payload].value))
  }

  ghost predicate Keyed(w: World) {
    && (forall id :: id in w.queue.jobs ==> KeyedByHash(w.queue.jobs[id], w.hashes))
    && (forall x :: x in w.txs ==> x in w.hashes && w.hashes[x] == w.txs[x].hash)
  }

  /** The sparse unique index on the payment hash. */
  ghost predicate HashesUnique(w: World) {
    forall x, y :: x in w.txs && y in w.txs && w.txs[x].hash == w.txs[y].hash && w.txs[x].hash.Some? ==> x == y
  }

  ghost predicate PhasesClaimed(w: World) {
    forall t :: t in w.phases ==> t in w.queue.claims && w.queue.claims[t].doc.name == VERIFY
  }

  ghost predicate NoExpiryOnceTerminal(w: World) {
    forall x :: x in w.txs && TerminalStatus(w.txs[x].status) ==> w.txs[x].expiresAt.None?
  }

  /** A sale is credited at most once, and only of a row that is confirmed and still there. */
  ghost predicate CreditedOnce(w: World) {
    forall x :: CreditsOf(w, x) > 0 ==>
      CreditsOf(w, x) == 1 && x in w.txs && w.txs[x].status.Confirmed?
  }

  /** What a handler at a phase may count on, being the only writer of its transaction. */
  predicate PhaseOk(p: Phase, credits: nat, row: Option<Tx>) {
    && (p.Verifying? || Saving(p) ==> credits == 0 && (row.Some? ==> !Settled(row.value)))
    && (p.EarnChecking? || p.EarnCrediting? ==> credits == 0 && row.Some? && row.value.status.Confirmed?)
  }

  function RowOf(w: World, x: string): Option<Tx> {
    if x in w.txs then Some(w.txs[x]) else None
  }

  ghost predicate PhasesOk(w: World) {
    forall t :: t in w.phases && t in w.queue.claims ==>
      PhaseOk(w.phases[t], CreditsOf(w, Subject(w, t)), RowOf(w, Subject(w, t)))
  }

  ghost predicate WorldInv(w: World) {
    && Inv(w.queue) && Keyed(w) && HashesUnique(w) && PhasesClaimed(w)
    && NoExpiryOnceTerminal(w) && CreditedOnce(w) && PhasesOk(w)
  }

  lemma BeginInv()
    ensures WorldInv(Begin)
  {
  }

  /** At most one verification handler runs per transaction: one row per key, one handler per row. */
  lemma Serialised(w: World, t: nat, u: nat)
    requires Inv(w.queue) && Keyed(w) && PhasesClaimed(w)
    requires t in w.phases && u in w.phases && Subject(w, t) == Subject(w, u)
    ensures t == u
  {
  }

  // ----- each action keeps it ------------------------------------------------

  lemma QueueStepKeeps(w: World, step: Step)
    requires WorldInv(w) && Can(w, QueueStep(step))
    ensures WorldInv(Do(w, QueueStep(step)))
  {
    StepKeepsInv(w.queue, step);
    StepRowsFrame(w.queue, step);
    StepClaimsFrame(w.queue, step);
    FramedStepKeeps(w, step, Apply(w.queue, step));
  }

  lemma FramedStepKeeps(w: World, step: Step, q: State)
    requires WorldInv(w) && QueueStepEnabled(w, step)
    requires Inv(q) && RowsFrame(w.queue, q, step) && ClaimsFrame(w.queue, q, step)
    ensures WorldInv(w.(queue := q, phases := PhasesAfter(w, step)))
  {
    var w' := w.(queue := q, phases := PhasesAfter(w, step));
    QueueStepKeepsKeys(w, step, q);
    FramedPhasesKeep(w, step, q);
    SameTables(w, w');
    FewerHashes(w, w');
  }

  lemma FramedPhasesKeep(w: World, step: Step, q: State)
    requires Numbered(w.queue) && PhasesClaimed(w) && PhasesOk(w) && ClaimsFrame(w.queue, q, step)
    ensures var w' := w.(queue := q, phases := PhasesAfter(w, step)); PhasesClaimed(w') && PhasesOk(w')
  {
    var w' := w.(queue := q, phases := PhasesAfter(w, step));
    forall t | t in w'.phases
      ensures t in q.claims && q.claims[t].doc.name == VERIFY
      ensures PhaseOk(w'.phases[t], CreditsOf(w', Subject(w', t)), RowOf(w', Subject(w', t)))
    {
      PhaseAfterStep(w, step, q, t);
    }
  }

  /** A handler's phase after a queue step: as before, or just begun. */
  lemma PhaseAfterStep(w: World, step: Step, q: State, t: nat)
    requires Numbered(w.queue) && PhasesClaimed(w) && PhasesOk(w) && t in PhasesAfter(w, step)
    requires ClaimsFrame(w.queue, q, step)
    ensures t in q.claims && q.claims[t].doc.name == VERIFY
    ensures var x := q.claims[t].doc.payload; PhaseOk(PhasesAfter(w, step)[t], CreditsOf(w, x), RowOf(w, x))
  {
    if step.Poll? && t == w.queue.nextTicket {
      assert t !in w.phases;
    } else {
      assert t in w.phases && t in w.queue.claims && !Releases(step, t);
      assert PhaseOk(w.phases[t], CreditsOf(w, Subject(w, t)), RowOf(w, Subject(w, t)));
    }
  }

  lemma SameTables(w: World, w': World)
    requires NoExpiryOnceTerminal(w) && CreditedOnce(w) && w'.txs == w.txs && w'.credits == w.credits
    ensures NoExpiryOnceTerminal(w') && CreditedOnce(w')
  {
    forall x | CreditsOf(w', x) > 0 ensures CreditsOf(w', x) == 1 && x in w'.txs && w'.txs[x].status.Confirmed? {
      assert CreditsOf(w, x) == CreditsOf(w', x);
    }
  }

  lemma QueueStepKeepsKeys(w: World, step: Step, q: State)
    requires Keyed(w) && QueueStepEnabled(w, step) && RowsFrame(w.queue, q, step)
    ensures Keyed(w.(queue := q, phases := PhasesAfter(w, step)))
  {
  }

  lemma EnqueueKeepsKeys(w: World, name: string, x: string, key: string)
    requires Keyed(w) && Located(w.hashes, x)
    requires || (name == VERIFY && key == VerifyKey(w.hashes[x].value))
             || (name == RECEIPT && key == ReceiptKey(w.hashes[x].value))
    ensures Keyed(w.(queue := DoEnqueue(w.queue, name, x, 5, 1000, key)))
  {
  }

  lemma AdmitKeeps(w: World, x: string, tx: Tx)
    requires WorldInv(w) && Can(w, Admit(x, tx))
    ensures WorldInv(Do(w, Admit(x, tx)))
  {
    var w' := Do(w, Admit(x, tx));
    assert CreditsOf(w, x) == 0;
    forall t | t in w'.phases && t in w'.queue.claims
      ensures PhaseOk(w'.phases[t], CreditsOf(w', Subject(w', t)), RowOf(w', Subject(w', t)))
    {
      KnownSubject(w, t);
      assert PhaseOk(w.phases[t], CreditsOf(w, Subject(w, t)), RowOf(w, Subject(w, t)));
    }
    AdmitKeepsTables(w, x, tx);
  }

  /** A handler's transaction was stored once. */
  lemma KnownSubject(w: World, t: nat)
    requires ClaimsHold(w.queue) && Keyed(w) && PhasesClaimed(w) && t in w.phases
    ensures Located(w.hashes, Subject(w, t))
  {
  }

  lemma AdmitKeepsTables(w: World, x: string, tx: Tx)
    requires Keyed(w) && HashesUnique(w) && NoExpiryOnceTerminal(w) && CreditedOnce(w) && Can(w, Admit(x, tx))
    ensures var w' := Do(w, Admit(x, tx));
      Keyed(w') && HashesUnique(w') && NoExpiryOnceTerminal(w') && CreditedOnce(w')
  {
    var w' := w.(txs := w.txs[x := tx], hashes := w.hashes[x := tx.hash]);
    forall id | id in w'.queue.jobs ensures KeyedByHash(w'.queue.jobs[id], w'.hashes) {
      assert KeyedByHash(w.queue.jobs[id], w.hashes);
    }
    forall y | CreditsOf(w', y) > 0 ensures CreditsOf(w', y) == 1 && y in w'.txs && w'.txs[y].status.Confirmed? {
      assert CreditsOf(w, y) > 0;
    }
  }

  /** A submitted checkout gets its payment hash; no job or handler was for it before. */
  lemma LocateKeeps(w: World, x: string, hash: string)
    requires WorldInv(w) && Can(w, Locate(x, hash))
    ensures WorldInv(Do(w, Locate(x, hash)))
  {
    var w' := Do(w, Locate(x, hash));
    LocateKeepsTables(w, x, hash);
    forall t | t in w'.phases && t in w'.queue.claims
      ensures PhaseOk(w'.phases[t], CreditsOf(w', Subject(w', t)), RowOf(w', Subject(w', t)))
    {
      KnownSubject(w, t);
      assert PhaseOk(w.phases[t], CreditsOf(w, Subject(w, t)), RowOf(w, Subject(w, t)));
    }
  }

  lemma LocateKeepsTables(w: World, x: string, hash: string)
    requires Keyed(w) && HashesUnique(w) && NoExpiryOnceTerminal(w) && CreditedOnce(w) && Can(w, Locate(x, hash))
    ensures var w' := Do(w, Locate(x, hash));
      Keyed(w') && HashesUnique(w') && NoExpiryOnceTerminal(w') && CreditedOnce(w')
  {
    var w' := Do(w, Locate(x, hash));
    forall id | id in w'.queue.jobs ensures KeyedByHash(w'.queue.jobs[id], w'.hashes) {
      assert KeyedByHash(w.queue.jobs[id], w.hashes);
    }
    forall y | CreditsOf(w', y) > 0 ensures CreditsOf(w', y) == 1 && y in w'.txs && w'.txs[y].status.Confirmed? {
      assert CreditsOf(w, y) > 0;
    }
  }

  lemma ReapKeeps(w: World, x: string)
    requires WorldInv(w) && Can(w, Reap(x))
    ensures WorldInv(Do(w, Reap(x)))
  {
    ReapKeepsCredits(w, x);
    ReapKeepsPhases(w, x);
  }

  lemma ReapKeepsCredits(w: World, x: string)
    requires CreditedOnce(w) && Can(w, Reap(x))
    ensures CreditedOnce(Do(w, Reap(x)))
  {
    var w' := Do(w, Reap(x));
    forall y | CreditsOf(w', y) > 0 ensures CreditsOf(w', y) == 1 && y in w'.txs && w'.txs[y].status.Confirmed? {
      assert CreditsOf(w, y) > 0;
    }
  }

  lemma ReapKeepsPhases(w: World, x: string)
    requires PhasesOk(w) && Can(w, Reap(x))
    ensures PhasesOk(Do(w, Reap(x)))
  {
    var w' := Do(w, Reap(x));
    forall t | t in w'.phases && t in w'.queue.claims
      ensures PhaseOk(w'.phases[t], CreditsOf(w', Subject(w', t)), RowOf(w', Subject(w', t)))
    {
      assert PhaseOk(w.phases[t], CreditsOf(w, Subject(w, t)), RowOf(w, Subject(w, t)));
    }
  }

  /** What one action of the handler of `x` may do: change `x`'s row and credits, its own phase, and add `x`'s
      receipt. */
  ghost predicate OnlyOwn(w: World, w': World, t: nat)
    requires t in w.queue.claims
  {
    var x := Subject(w, t);
    && t in w'.phases && w'.phases == w.phases[t := w'.phases[t]]
    && w'.hashes == w.hashes && w'.queue.claims == w.queue.claims
    && (forall y :: y != x ==> RowOf(w', y) == RowOf(w, y))
    && (forall y :: y != x ==> CreditsOf(w', y) == CreditsOf(w, y))
    && (w'.queue == w.queue || ReceiptAdded(w, w', x))
  }

  predicate ReceiptAdded(w: World, w': World, x: string) {
    Located(w.hashes, x) && w'.queue == DoEnqueue(w.queue, RECEIPT, x, 5, 1000, ReceiptKey(w.hashes[x].value))
  }

  /** What must hold of `x`'s row, credits and handler afterwards. */
  predicate OwnOk(w: World, w': World, x: string, p: Phase) {
    && PhaseOk(p, CreditsOf(w', x), RowOf(w', x))
    && (CreditsOf(w', x) > 0 ==> CreditsOf(w', x) == 1 && x in w'.txs && w'.txs[x].status.Confirmed?)
    && (x in w'.txs ==> x in w.txs && w'.txs[x].hash == w.txs[x].hash)
    && (x in w'.txs && TerminalStatus(w'.txs[x].status) ==> w'.txs[x].expiresAt.None?)
  }

  lemma SaveEffect(w: World, t: nat)
    requires t in w.phases && t in w.queue.claims && Saving(w.phases[t])
    requires OwnOk(w, w, Subject(w, t), w.phases[t])
    ensures var w' := RunSave(w, t); OnlyOwn(w, w', t) && OwnOk(w, w', Subject(w, t), w'.phases[t])
  {
  }

  lemma EarnEffect(w: World, t: nat)
    requires t in w.phases && t in w.queue.claims && Earning(w.phases[t])
    requires OwnOk(w, w, Subject(w, t), w.phases[t])
    ensures var w' := RunEarn(w, t); OnlyOwn(w, w', t) && OwnOk(w, w', Subject(w, t), w'.phases[t])
  {
  }

  lemma ReceiptEffect(w: World, t: nat)
    requires t in w.phases && t in w.queue.claims && w.phases[t].QueueingReceipt?
    requires OwnOk(w, w, Subject(w, t), w.phases[t])
    ensures var w' := RunReceipt(w, t); OnlyOwn(w, w', t) && OwnOk(w, w', Subject(w, t), w'.phases[t])
  {
  }

  lemma PlainEffect(w: World, t: nat, p: Phase)
    requires t in w.phases && t in w.queue.claims && OwnOk(w, w, Subject(w, t), p)
    ensures OnlyOwn(w, GoTo(w, t, p), t) && OwnOk(w, GoTo(w, t, p), Subject(w, t), p)
  {
  }

  lemma HandlerEffect(w: World, t: nat, v: Verdict)
    requires Can(w, Run(t, v)) && OwnOk(w, w, Subject(w, t), w.phases[t])
    ensures var w' := RunHandler(w, t, v); OnlyOwn(w, w', t) && OwnOk(w, w', Subject(w, t), w'.phases[t])
  {
    var p := w.phases[t];
    if Saving(p) {
      SaveEffect(w, t);
    } else if Earning(p) {
      EarnEffect(w, t);
    } else if p.QueueingReceipt? {
      ReceiptEffect(w, t);
    } else {
      var next := RunHandler(w, t, v).phases[t];
      assert RunHandler(w, t, v) == GoTo(w, t, next);
      PlainEffect(w, t, next);
    }
  }

  lemma RunKeeps(w: World, t: nat, v: Verdict)
    requires WorldInv(w) && Can(w, Run(t, v))
    ensures WorldInv(RunHandler(w, t, v))
  {
    OwnRowOk(w, t);
    HandlerEffect(w, t, v);
    EffectKeeps(w, RunHandler(w, t, v), t);
  }

  lemma OwnRowOk(w: World, t: nat)
    requires CreditedOnce(w) && NoExpiryOnceTerminal(w) && PhasesOk(w) && t in w.phases && t in w.queue.claims
    ensures OwnOk(w, w, Subject(w, t), w.phases[t])
  {
  }

  lemma EffectKeeps(w: World, w': World, t: nat)
    requires WorldInv(w) && t in w.phases && t in w.queue.claims
    requires OnlyOwn(w, w', t) && OwnOk(w, w', Subject(w, t), w'.phases[t])
    ensures WorldInv(w')
  {
    EffectKeepsQueue(w, w', t);
    EffectKeepsTables(w, w', t);
    EffectKeepsPhases(w, w', t);
  }

  lemma EffectKeepsPhases(w: World, w': World, t: nat)
    requires Inv(w.queue) && Keyed(w) && PhasesClaimed(w) && PhasesOk(w) && t in w.phases && t in w.queue.claims
    requires OnlyOwn(w, w', t) && OwnOk(w, w', Subject(w, t), w'.phases[t])
    ensures PhasesOk(w')
  {
    RunKeepsPhases(w, w', t);
  }

  lemma EffectKeepsQueue(w: World, w': World, t: nat)
    requires Inv(w.queue) && Keyed(w) && PhasesClaimed(w) && t in w.phases && t in w.queue.claims
    requires OnlyOwn(w, w', t) && OwnOk(w, w', Subject(w, t), w'.phases[t])
    ensures Inv(w'.queue) && Keyed(w') && PhasesClaimed(w')
  {
    NoNewTx(w, w', t);
    RunKeepsQueue(w, w', Subject(w, t));
  }

  lemma EffectKeepsTables(w: World, w': World, t: nat)
    requires HashesUnique(w) && NoExpiryOnceTerminal(w) && CreditedOnce(w) && t in w.phases && t in w.queue.claims
    requires OnlyOwn(w, w', t) && OwnOk(w, w', Subject(w, t), w'.phases[t])
    ensures HashesUnique(w') && NoExpiryOnceTerminal(w') && CreditedOnce(w')
  {
    NoNewTx(w, w', t);
    FewerHashes(w, w');
    RunKeepsRows(w, w', Subject(w, t));
  }

  lemma NoNewTx(w: World, w': World, t: nat)
    requires t in w.phases && t in w.queue.claims && OnlyOwn(w, w', t) && OwnOk(w, w', Subject(w, t), w'.phases[t])
    ensures forall y :: y in w'.txs ==> y in w.txs && w'.txs[y].hash == w.txs[y].hash
  {
    forall y | y in w'.txs ensures y in w.txs && w'.txs[y].hash == w.txs[y].hash {
      assert y != Subject(w, t) ==> RowOf(w', y) == RowOf(w, y);
    }
  }

  lemma FewerHashes(w: World, w': World)
    requires HashesUnique(w) && forall y :: y in w'.txs ==> y in w.txs && w'.txs[y].hash == w.txs[y].hash
    ensures HashesUnique(w')
  {
  }

  lemma RunKeepsQueue(w: World, w': World, x: string)
    requires Inv(w.queue) && Keyed(w) && PhasesClaimed(w) && w'.hashes == w.hashes
    requires w'.phases.Keys == w.phases.Keys && w'.queue.claims == w.queue.claims
    requires forall y :: y in w'.txs ==> y in w.txs && w'.txs[y].hash == w.txs[y].hash
    requires w'.queue == w.queue || ReceiptAdded(w, w', x)
    ensures Inv(w'.queue) && Keyed(w') && PhasesClaimed(w')
  {
    if w'.queue != w.queue {
      EnqueueKeeps(w.queue, RECEIPT, x, 5, 1000, ReceiptKey(w.hashes[x].value));
      EnqueueKeepsKeys(w, RECEIPT, x, ReceiptKey(w.hashes[x].value));
    }
  }

  lemma RunKeepsRows(w: World, w': World, x: string)
    requires NoExpiryOnceTerminal(w) && CreditedOnce(w)
    requires forall y :: y != x ==> RowOf(w', y) == RowOf(w, y) && CreditsOf(w', y) == CreditsOf(w, y)
    requires CreditsOf(w', x) > 0 ==> CreditsOf(w', x) == 1 && x in w'.txs && w'.txs[x].status.Confirmed?
    requires x in w'.txs && TerminalStatus(w'.txs[x].status) ==> w'.txs[x].expiresAt.None?
    ensures NoExpiryOnceTerminal(w') && CreditedOnce(w')
  {
    forall y | y in w'.txs && TerminalStatus(w'.txs[y].status) ensures w'.txs[y].expiresAt.None? {
      assert y != x ==> RowOf(w', y) == RowOf(w, y);
    }
    forall y | CreditsOf(w', y) > 0 ensures CreditsOf(w', y) == 1 && y in w'.txs && w'.txs[y].status.Confirmed? {
      assert y != x ==> RowOf(w', y) == RowOf(w, y);
    }
  }

  lemma RunKeepsPhases(w: World, w': World, t: nat)
    requires Inv(w.queue) && Keyed(w) && PhasesClaimed(w) && PhasesOk(w) && t in w.phases
    requires w'.phases.Keys == w.phases.Keys && w'.queue.claims == w.queue.claims
    requires forall u :: u in w.phases && u != t ==> w'.phases[u] == w.phases[u]
    requires var x := Subject(w, t);
      && (forall y :: y != x ==> RowOf(w', y) == RowOf(w, y) && CreditsOf(w', y) == CreditsOf(w, y))
      && PhaseOk(w'.phases[t], CreditsOf(w', x), RowOf(w', x))
    ensures PhasesOk(w')
  {
  }

  lemma SubmitKeeps(w: World, x: string)
    requires WorldInv(w) && Can(w, Submit(x))
    ensures WorldInv(Do(w, Submit(x)))
  {
    EnqueueKeeps(w.queue, VERIFY, x, 5, 1000, VerifyKey(w.txs[x].hash.value));
    EnqueueKeepsKeys(w, VERIFY, x, VerifyKey(w.txs[x].hash.value));
    var w' := Do(w, Submit(x));
    assert w'.queue.claims == w.queue.claims;
    SamePhases(w, w');
    SameTables(w, w');
  }

  lemma SamePhases(w: World, w': World)
    requires PhasesOk(w) && w'.phases == w.phases && w'.queue.claims == w.queue.claims
    requires w'.txs == w.txs && w'.credits == w.credits
    ensures PhasesOk(w')
  {
  }

  lemma ActionKeeps(w: World, a: Action)
    requires WorldInv(w) && Can(w, a)
    ensures WorldInv(Do(w, a))
  {
    match a
    case QueueStep(step) => QueueStepKeeps(w, step);
    case Admit(x, tx) => AdmitKeeps(w, x, tx);
    case Locate(x, hash) => LocateKeeps(w, x, hash);
    case Submit(x) => SubmitKeeps(w, x);
    case Reap(x) => ReapKeeps(w, x);
    case Run(t, v) => RunKeeps(w, t, v);
  }

  lemma {:induction false} RunsKeep(w: World, actions: seq<Action>)
    requires WorldInv(w) && Possible(w, actions)
    ensures WorldInv(Outcome(w, actions))
    decreases |actions|
  {
    if actions != [] {
      ActionKeeps(w, actions[0]);
      RunsKeep(Do(w, actions[0]), actions[1..]);
    }
  }

  // ----- theorems ------------------------------------------------------------

  /** Over every run with retries, crashes and restarts: a sale's earnings are credited at most once per transaction
      and per payment hash, at most one receipt job ever exists per transaction and per payment hash, and at most one
      handler works on a transaction. */
  lemma {:induction false} EarningsAndReceiptsAtMostOnce(actions: seq<Action>)
    requires Possible(Begin, actions)
    ensures var w := Outcome(Begin, actions);
      && (forall x :: CreditsOf(w, x) <= 1)
      && (forall x, y :: CreditsOf(w, x) > 0 && CreditsOf(w, y) > 0 && SameHash(w, x, y) ==> x == y)
      && (forall a, b :: IsReceipt(w, a) && IsReceipt(w, b) && w.queue.jobs[a].payload == w.queue.jobs[b].payload ==>
        a == b)
      && (forall a, b :: IsReceipt(w, a) && IsReceipt(w, b) && w.queue.jobs[a].key == w.queue.jobs[b].key ==> a == b)
      && (forall a :: IsReceipt(w, a) ==> ReceiptOfHash(w, a))
      && (forall t, u :: Handles(w, t) && Handles(w, u) && Subject(w, t) == Subject(w, u) ==> t == u)
  {
    BeginInv();
    RunsKeep(Begin, actions);
    var w := Outcome(Begin, actions);
    forall x ensures CreditsOf(w, x) <= 1 {
    }
    forall x, y | CreditsOf(w, x) > 0 && CreditsOf(w, y) > 0 && SameHash(w, x, y) ensures x == y {
      CreditedRowStands(w, x);
      CreditedRowStands(w, y);
    }
    forall a, b | IsReceipt(w, a) && IsReceipt(w, b) && w.queue.jobs[a].payload == w.queue.jobs[b].payload
      ensures a == b
    {
      assert KeyedByHash(w.queue.jobs[a], w.hashes) && KeyedByHash(w.queue.jobs[b], w.hashes);
    }
    forall a | IsReceipt(w, a) ensures ReceiptOfHash(w, a) {
      assert KeyedByHash(w.queue.jobs[a], w.hashes);
    }
    forall t, u | Handles(w, t) && Handles(w, u) && Subject(w, t) == Subject(w, u) ensures t == u {
      Serialised(w, t, u);
    }
  }

  predicate SameHash(w: World, x: string, y: string) {
    Located(w.hashes, x) && Located(w.hashes, y) && w.hashes[x] == w.hashes[y]
  }

  /** A credited row is there for good, so its hash stays taken. */
  lemma CreditedRowStands(w: World, x: string)
    requires CreditedOnce(w) && Keyed(w) && CreditsOf(w, x) > 0
    ensures x in w.txs && x in w.hashes && w.hashes[x] == w.txs[x].hash
  {
  }

  predicate IsReceipt(w: World, id: nat) { id in w.queue.jobs && w.queue.jobs[id].name == RECEIPT }

  /** The row's key names the payment hash of the transaction it is for. */
  predicate ReceiptOfHash(w: World, id: nat)
    requires IsReceipt(w, id)
  {
    var j := w.queue.jobs[id];
    Located(w.hashes, j.payload) && j.key == ReceiptKey(w.hashes[j.payload].value)
  }

  predicate Handles(w: World, t: nat) { t in w.phases && t in w.queue.claims }
}
