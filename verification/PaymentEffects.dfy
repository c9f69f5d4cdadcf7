/** What a verification leaves behind: a completed job of a confirmed transaction has its receipt queued, in every
    run; and without crashes and failing calls a confirmed sale's reference is in the ledger, which holds credited
    sales only. */
module PaymentEffects {
  import opened Options
  import opened JobQueue
  import opened JobQueueSafety
  import opened JobQueueRecovery
  import opened PaymentJob
  import opened PaymentSafety
  import opened PaymentProgress
  import opened PaymentCompletion
  import opened PaymentLiveness

  // ----- receipts ------------------------------------------------------------

  /** The transaction is gone, or failed, or its receipt is queued under its payment hash. */
  predicate ReceiptOk(w: World, x: string) {
    || x !in w.txs || w.txs[x].status.Failed?
    || (Located(w.hashes, x) && HasKey(w.queue, "receipt:" + w.hashes[x].value))
  }

  lemma KeyStays(w: World, a: Action, key: string)
    requires WorldInv(w) && Can(w, a) && HasKey(w.queue, key)
    ensures HasKey(Do(w, a).queue, key)
  {
    var id :| id in w.queue.jobs && w.queue.jobs[id].key == key;
    if a.QueueStep? { QueueStepKeepsJob(w.queue, a.step, id); } else { OtherActionKeepsJob(w, a, id); }
    assert Do(w, a).queue.jobs[id].key == key;
  }

  lemma HashStays(w: World, a: Action, x: string)
    requires Keyed(w) && Can(w, a) && Located(w.hashes, x)
    ensures Located(Do(w, a).hashes, x) && Do(w, a).hashes[x] == w.hashes[x]
  {
  }

  lemma ReceiptOkStays(w: World, a: Action, x: string)
    requires WorldInv(w) && Can(w, a) && Located(w.hashes, x) && ReceiptOk(w, x)
    ensures Located(Do(w, a).hashes, x) && ReceiptOk(Do(w, a), x)
  {
    HashStays(w, a, x);
    if x !in w.txs {
      IdsAreNotReused(w, a, x);
    } else if w.txs[x].status.Failed? {
      SettledStays(w, a, x);
    } else {
      KeyStays(w, a, "receipt:" + w.hashes[x].value);
    }
  }

  ghost predicate Returns(w: World) {
    forall t :: t in w.phases && t in w.queue.claims && w.phases[t].Returned? ==> ReceiptOk(w, Subject(w, t))
  }

  ghost predicate Completes(w: World) {
    forall id :: id in w.queue.jobs && w.queue.jobs[id].name == VERIFY && w.queue.jobs[id].status.Completed? ==>
      ReceiptOk(w, w.queue.jobs[id].payload)
  }

  ghost predicate ReceiptInv(w: World) { WorldInv(w) && ClaimsVerified(w) && Returns(w) && Completes(w) }

  lemma HandlerReturns(w: World, t: nat, v: Verdict)
    requires WorldInv(w) && Can(w, Run(t, v)) && t in RunHandler(w, t, v).phases
      && RunHandler(w, t, v).phases[t].Returned?
    ensures ReceiptOk(RunHandler(w, t, v), Subject(w, t))
  {
    KnownSubject(w, t);
    if w.phases[t].QueueingReceipt? {
      ReceiptIsQueued(w, t);
    } else if Saving(w.phases[t]) {
      SaveReturns(w, t);
    } else {
      OthersReturn(w, t, v);
    }
  }

  lemma SaveReturns(w: World, t: nat)
    requires t in w.phases && t in w.queue.claims && Saving(w.phases[t])
    ensures var w' := RunSave(w, t); t in w'.phases && (w'.phases[t].Returned? ==> ReceiptOk(w', Subject(w, t)))
  {
  }

  lemma EarnNeverReturns(w: World, t: nat)
    requires t in w.phases && t in w.queue.claims && Earning(w.phases[t])
    ensures var w' := RunEarn(w, t); t in w'.phases && !w'.phases[t].Returned?
  {
  }

  lemma OthersReturn(w: World, t: nat, v: Verdict)
    requires Can(w, Run(t, v)) && !Saving(w.phases[t]) && !w.phases[t].QueueingReceipt?
    ensures var w' := RunHandler(w, t, v); t in w'.phases && (w'.phases[t].Returned? ==> ReceiptOk(w', Subject(w, t)))
  {
    if Earning(w.phases[t]) { EarnNeverReturns(w, t); }
  }

  lemma ReceiptIsQueued(w: World, t: nat)
    requires t in w.phases && t in w.queue.claims && Located(w.hashes, Subject(w, t)) && Numbered(w.queue)
    ensures var w' := RunReceipt(w, t);
      && w'.hashes == w.hashes && t in w'.phases
      && (w'.phases[t].Returned? ==> HasKey(w'.queue, "receipt:" + w.hashes[Subject(w, t)].value))
  {
    var key := "receipt:" + w.hashes[Subject(w, t)].value;
    if w.queue.accepting && !HasKey(w.queue, key) {
      assert RunReceipt(w, t).queue.jobs[w.queue.nextId].key == key;
    }
  }

  lemma QueueStepReturns(w: World, step: Step)
    requires ReceiptInv(w) && Can(w, QueueStep(step))
    ensures Returns(Do(w, QueueStep(step)))
  {
    var w' := Do(w, QueueStep(step));
    StepClaimsFrame(w.queue, step);
    forall t | t in w'.phases && t in w'.queue.claims && w'.phases[t].Returned? ensures ReceiptOk(w', Subject(w', t)) {
      assert t in w.phases && t in w.queue.claims && Subject(w', t) == Subject(w, t);
      KnownSubject(w, t);
      ReceiptOkStays(w, QueueStep(step), Subject(w, t));
    }
  }

  lemma RunReturns(w: World, t: nat, v: Verdict)
    requires ReceiptInv(w) && Can(w, Run(t, v)) && OnlyOwn(w, RunHandler(w, t, v), t)
    ensures Returns(RunHandler(w, t, v))
  {
    var w' := RunHandler(w, t, v);
    forall u | u in w'.phases && u in w'.queue.claims && w'.phases[u].Returned? ensures ReceiptOk(w', Subject(w', u)) {
      if u == t {
        HandlerReturns(w, t, v);
      } else {
        KnownSubject(w, u);
        ReceiptOkStays(w, Run(t, v), Subject(w, u));
      }
    }
  }

  lemma TableActionReturns(w: World, a: Action)
    requires ReceiptInv(w) && Can(w, a) && !a.QueueStep? && !a.Run?
    ensures Returns(Do(w, a))
  {
    var w' := Do(w, a);
    forall u | u in w'.phases && u in w'.queue.claims && w'.phases[u].Returned? ensures ReceiptOk(w', Subject(w', u)) {
      KnownSubject(w, u);
      ReceiptOkStays(w, a, Subject(w, u));
    }
  }

  /** A verification row becomes completed only when its handler has returned. */
  lemma CompletedRow(w: World, a: Action, id: nat)
    requires ReceiptInv(w) && Can(w, a) && id in Do(w, a).queue.jobs
    requires var j := Do(w, a).queue.jobs[id]; j.name == VERIFY && j.status.Completed?
    ensures id in w.queue.jobs && w.queue.jobs[id].name == VERIFY
    ensures w.queue.jobs[id].payload == Do(w, a).queue.jobs[id].payload
    ensures ReceiptOk(w, w.queue.jobs[id].payload) && Located(w.hashes, w.queue.jobs[id].payload)
  {
    if a.QueueStep? { CompletedByStep(w, a.step, id); } else { CompletedBefore(w, a, id); }
    assert KeyedByHash(w.queue.jobs[id], w.hashes);
  }

  lemma CompletedByStep(w: World, step: Step, id: nat)
    requires ReceiptInv(w) && Can(w, QueueStep(step)) && id in Apply(w.queue, step).jobs
    requires var j := Apply(w.queue, step).jobs[id]; j.name == VERIFY && j.status.Completed?
    ensures id in w.queue.jobs && w.queue.jobs[id].name == VERIFY
    ensures w.queue.jobs[id].payload == Apply(w.queue, step).jobs[id].payload
    ensures ReceiptOk(w, w.queue.jobs[id].payload)
  {
    if id in w.queue.jobs {
      RowChangesExactly(w.queue, step, id);
      QueueStepKeepsJob(w.queue, step, id);
      if SucceedsOn(w.queue, step, id) { SucceededHandler(w, step.ticket, id); }
    } else {
      NewRowIsQueued(w.queue, step, id);
    }
  }

  lemma SucceededHandler(w: World, t: nat, id: nat)
    requires ReceiptInv(w) && Can(w, QueueStep(Succeed(t))) && w.queue.claims[t].id == id
    requires id in w.queue.jobs && w.queue.jobs[id].name == VERIFY
    ensures ReceiptOk(w, w.queue.jobs[id].payload)
  {
    assert w.queue.claims[t].doc == w.queue.jobs[id];
    assert ReceiptOk(w, Subject(w, t));
  }

  lemma CompletedBefore(w: World, a: Action, id: nat)
    requires ReceiptInv(w) && Can(w, a) && !a.QueueStep? && id in Do(w, a).queue.jobs
    requires var j := Do(w, a).queue.jobs[id]; j.name == VERIFY && j.status.Completed?
    ensures id in w.queue.jobs && w.queue.jobs[id] == Do(w, a).queue.jobs[id]
  {
    if id in w.queue.jobs { OtherActionKeepsJob(w, a, id); } else { NewRowsWait(w, a, id); }
  }

  lemma NewRowsWait(w: World, a: Action, id: nat)
    requires Can(w, a) && !a.QueueStep? && id !in w.queue.jobs && id in Do(w, a).queue.jobs
    ensures Do(w, a).queue.jobs[id].status.Queued?
  {
  }

  lemma ClaimsStayVerified(w: World, a: Action)
    requires WorldInv(w) && ClaimsVerified(w) && Can(w, a)
    ensures ClaimsVerified(Do(w, a))
  {
    if a.QueueStep? {
      StepClaimsFrame(w.queue, a.step);
      ReleasedClaims(w, a.step);
    } else if a.Run? {
      OwnRowOk(w, a.ticket);
      HandlerEffect(w, a.ticket, a.verdict);
    }
  }

  lemma ReleasedClaims(w: World, step: Step)
    requires Numbered(w.queue) && Enabled(w.queue, step)
    ensures forall t :: t in Apply(w.queue, step).claims ==> !Releases(step, t)
    ensures step.Poll? ==> Apply(w.queue, step).claims[w.queue.nextTicket].doc.name == w.queue.jobs[step.pick].name
  {
  }

  lemma ActionReturns(w: World, a: Action)
    requires ReceiptInv(w) && Can(w, a)
    ensures Returns(Do(w, a))
  {
    if a.QueueStep? {
      QueueStepReturns(w, a.step);
    } else if a.Run? {
      OwnRowOk(w, a.ticket);
      HandlerEffect(w, a.ticket, a.verdict);
      RunReturns(w, a.ticket, a.verdict);
    } else {
      TableActionReturns(w, a);
    }
  }

  lemma ActionCompletes(w: World, a: Action)
    requires ReceiptInv(w) && Can(w, a)
    ensures Completes(Do(w, a))
  {
    var w' := Do(w, a);
    forall id | id in w'.queue.jobs && w'.queue.jobs[id].name == VERIFY && w'.queue.jobs[id].status.Completed?
      ensures ReceiptOk(w', w'.queue.jobs[id].payload)
    {
      CompletedRow(w, a, id);
      ReceiptOkStays(w, a, w.queue.jobs[id].payload);
    }
  }

  lemma {:induction false} RunKeepsReceipts(w: World, actions: seq<Action>)
    requires ReceiptInv(w) && Possible(w, actions)
    ensures ReceiptInv(Outcome(w, actions))
    decreases |actions|
  {
    if actions != [] {
      ActionKeeps(w, actions[0]);
      ClaimsStayVerified(w, actions[0]);
      ActionReturns(w, actions[0]);
      ActionCompletes(w, actions[0]);
      RunKeepsReceipts(Do(w, actions[0]), actions[1..]);
    }
  }

  /** Over every run, crashes, shutdowns and failing calls included: when a verification job is completed, its
      transaction is gone or failed, or its receipt is queued under `receipt:` and its payment hash. */
  lemma {:induction false} CompletedHasReceipt(actions: seq<Action>, x: string, id: nat)
    requires Possible(Begin, actions)
    ensures var w := Outcome(Begin, actions);
      Verifies(w, id, x) && w.queue.jobs[id].status.Completed? && x in w.txs && !w.txs[x].status.Failed? ==>
        Located(w.hashes, x) && HasKey(w.queue, "receipt:" + w.hashes[x].value)
  {
    BeginInv();
    RunKeepsReceipts(Begin, actions);
  }

  // ----- the ledger ----------------------------------------------------------

  /** A sale's reference: its payment hash, or its id when it has none. */
  function Reference(x: string, tx: Tx): string {
    if tx.hash.Some? && tx.hash.value != "" then tx.hash.value else x
  }

  ghost predicate CreditedReference(w: World, ref: string) {
    exists y :: y in w.txs && CreditsOf(w, y) > 0 && Reference(y, w.txs[y]) == ref
  }

  /** Every reference in the ledger is that of a credited sale, and a handler about to log has credited. */
  ghost predicate LedgerBacked(w: World) {
    && (forall ref :: ref in w.ledger ==> CreditedReference(w, ref))
    && (forall t :: t in w.phases && t in w.queue.claims && w.phases[t].EarnLogging? ==>
      CreditsOf(w, Subject(w, t)) > 0)
  }

  lemma CreditStays(w: World, a: Action, y: string)
    requires WorldInv(w) && Can(w, a) && CreditsOf(w, y) > 0
    ensures CreditsOf(Do(w, a), y) > 0 && y in w.txs && y in Do(w, a).txs && Do(w, a).txs[y] == w.txs[y]
  {
    CreditedRowStands(w, y);
    assert w.txs[y].status.Confirmed?;
    SettledStays(w, a, y);
    if a.Run? { HandlerKeepsCredits(w, a.ticket, a.verdict, y); }
  }

  lemma HandlerKeepsCredits(w: World, t: nat, v: Verdict, y: string)
    requires Can(w, Run(t, v))
    ensures CreditsOf(RunHandler(w, t, v), y) >= CreditsOf(w, y)
  {
  }

  lemma ReferenceStaysCredited(w: World, a: Action, ref: string)
    requires WorldInv(w) && Can(w, a) && CreditedReference(w, ref)
    ensures CreditedReference(Do(w, a), ref)
  {
    var y :| y in w.txs && CreditsOf(w, y) > 0 && Reference(y, w.txs[y]) == ref;
    CreditStays(w, a, y);
  }

  lemma LedgerChanges(w: World, t: nat, v: Verdict)
    requires Can(w, Run(t, v)) && !w.phases[t].EarnLogging?
    ensures RunHandler(w, t, v).ledger == w.ledger
  {
    if Earning(w.phases[t]) { CheckingAndCrediting(w, t); }
  }

  lemma CheckingAndCrediting(w: World, t: nat)
    requires t in w.phases && t in w.queue.claims && (w.phases[t].EarnChecking? || w.phases[t].EarnCrediting?)
    ensures var w' := RunEarn(w, t); w'.ledger == w.ledger && t in w'.phases
    ensures RunEarn(w, t).phases[t].EarnLogging? ==> CreditsOf(RunEarn(w, t), Subject(w, t)) > 0
  {
  }

  lemma LoggingAdds(w: World, t: nat)
    requires t in w.phases && t in w.queue.claims && w.phases[t].EarnLogging?
    ensures var w', x := RunEarn(w, t), Subject(w, t);
      && w'.ledger == (if x in w.txs then w.ledger + {Reference(x, w.txs[x])} else w.ledger)
      && t in w'.phases && !w'.phases[t].EarnLogging?
  {
  }

  lemma NewReference(w: World, t: nat, v: Verdict, ref: string)
    requires LedgerBacked(w) && Can(w, Run(t, v)) && ref in RunHandler(w, t, v).ledger && ref !in w.ledger
    ensures CreditedReference(w, ref)
  {
    if w.phases[t].EarnLogging? { LoggingAdds(w, t); } else { LedgerChanges(w, t, v); }
  }

  lemma SavingNeverLogs(w: World, t: nat)
    requires t in w.phases && t in w.queue.claims && Saving(w.phases[t])
    ensures t in RunSave(w, t).phases && !RunSave(w, t).phases[t].EarnLogging?
  {
  }

  lemma LoggingHasCredited(w: World, t: nat, v: Verdict)
    requires Can(w, Run(t, v)) && t in RunHandler(w, t, v).phases && RunHandler(w, t, v).phases[t].EarnLogging?
    ensures CreditsOf(RunHandler(w, t, v), Subject(w, t)) > 0
  {
    if Saving(w.phases[t]) {
      SavingNeverLogs(w, t);
    } else if w.phases[t].EarnLogging? {
      LoggingAdds(w, t);
    } else if Earning(w.phases[t]) {
      CheckingAndCrediting(w, t);
    } else {
      OthersNeverLog(w, t, v);
    }
  }

  lemma OthersNeverLog(w: World, t: nat, v: Verdict)
    requires Can(w, Run(t, v)) && !Saving(w.phases[t]) && !Earning(w.phases[t])
    ensures t in RunHandler(w, t, v).phases && !RunHandler(w, t, v).phases[t].EarnLogging?
  {
  }

  lemma ActionKeepsBacked(w: World, a: Action)
    requires WorldInv(w) && LedgerBacked(w) && Can(w, a)
    ensures LedgerBacked(Do(w, a))
  {
    var w' := Do(w, a);
    forall ref | ref in w'.ledger ensures CreditedReference(w', ref) {
      if ref !in w.ledger { NewReference(w, a.ticket, a.verdict, ref); }
      ReferenceStaysCredited(w, a, ref);
    }
    forall t | t in w'.phases && t in w'.queue.claims && w'.phases[t].EarnLogging?
      ensures CreditsOf(w', Subject(w', t)) > 0
    {
      LoggingStays(w, a, t);
    }
  }

  lemma LoggingStays(w: World, a: Action, t: nat)
    requires WorldInv(w) && LedgerBacked(w) && Can(w, a)
    requires t in Do(w, a).phases && t in Do(w, a).queue.claims && Do(w, a).phases[t].EarnLogging?
    ensures CreditsOf(Do(w, a), Subject(Do(w, a), t)) > 0
  {
    if a.QueueStep? {
      StepLogging(w, a.step, t);
    } else if a.Run? {
      OwnRowOk(w, a.ticket);
      HandlerEffect(w, a.ticket, a.verdict);
      if t == a.ticket {
        LoggingHasCredited(w, t, a.verdict);
      } else {
        OtherLogging(w, Do(w, a), a.ticket, t);
        CreditStays(w, a, Subject(w, t));
      }
    }
  }

  lemma StepLogging(w: World, step: Step, t: nat)
    requires Numbered(w.queue) && PhasesClaimed(w) && LedgerBacked(w) && Can(w, QueueStep(step))
    requires var w' := Do(w, QueueStep(step)); t in w'.phases && t in w'.queue.claims && w'.phases[t].EarnLogging?
    ensures CreditsOf(Do(w, QueueStep(step)), Subject(Do(w, QueueStep(step)), t)) > 0
  {
    StepClaimsFrame(w.queue, step);
    assert t in w.phases && t in w.queue.claims;
  }

  lemma OtherLogging(w: World, w': World, u: nat, t: nat)
    requires u in w.queue.claims && OnlyOwn(w, w', u) && t != u && LedgerBacked(w)
    requires t in w'.phases && t in w'.queue.claims && w'.phases[t].EarnLogging?
    ensures t in w.queue.claims && Subject(w', t) == Subject(w, t) && CreditsOf(w, Subject(w, t)) > 0
  {
  }

  lemma {:induction false} RunKeepsBacked(w: World, actions: seq<Action>)
    requires WorldInv(w) && LedgerBacked(w) && Possible(w, actions)
    ensures LedgerBacked(Outcome(w, actions))
    decreases |actions|
  {
    if actions != [] {
      ActionKeeps(w, actions[0]);
      ActionKeepsBacked(w, actions[0]);
      RunKeepsBacked(Do(w, actions[0]), actions[1..]);
    }
  }

  predicate Earns(w: World, t: nat, x: string) {
    t in w.phases && t in w.queue.claims && Subject(w, t) == x && Earning(w.phases[t])
  }

  predicate ConfirmedSale(w: World, x: string) {
    x in w.txs && w.txs[x].status.Confirmed? && !w.txs[x].donation && w.txs[x].hasCreator
  }

  /** A confirmed sale is logged, or its handler is on the way to logging it. */
  ghost predicate Earned(w: World, x: string) {
    ConfirmedSale(w, x) ==> Reference(x, w.txs[x]) in w.ledger || exists t :: Earns(w, t, x)
  }

  lemma QueueStepEarned(w: World, step: Step, x: string)
    requires Numbered(w.queue) && Smooth(w, QueueStep(step)) && Earned(w, x)
    ensures Earned(Do(w, QueueStep(step)), x)
  {
    StepClaimsFrame(w.queue, step);
    if t :| Earns(w, t, x) { assert Earns(Do(w, QueueStep(step)), t, x); }
  }

  lemma TableActionEarned(w: World, a: Action, x: string)
    requires Can(w, a) && !a.QueueStep? && !a.Run? && x in w.hashes && Earned(w, x)
    ensures Earned(Do(w, a), x)
  {
    if t :| Earns(w, t, x) { assert Earns(Do(w, a), t, x); }
  }

  lemma OtherHandlerEarned(w: World, w': World, t: nat, x: string)
    requires t in w.queue.claims && OnlyOwn(w, w', t) && Subject(w, t) != x && w.ledger <= w'.ledger && Earned(w, x)
    ensures Earned(w', x)
  {
    assert RowOf(w', x) == RowOf(w, x);
    if u :| Earns(w, u, x) { assert Earns(w', u, x); }
  }

  lemma LedgerGrows(w: World, t: nat, v: Verdict)
    requires Can(w, Run(t, v))
    ensures w.ledger <= RunHandler(w, t, v).ledger
  {
  }

  /** The sale's own handler: it logs, or goes on towards logging. */
  lemma EarningGoesOn(w: World, t: nat, x: string)
    requires t in w.phases && t in w.queue.claims && Subject(w, t) == x && Earning(w.phases[t])
    ensures var w' := RunEarn(w, t);
      ConfirmedSale(w', x) ==> Reference(x, w'.txs[x]) in w'.ledger || Earns(w', t, x)
  {
  }

  lemma SavingStarts(w: World, t: nat, x: string)
    requires t in w.phases && t in w.queue.claims && Subject(w, t) == x && Saving(w.phases[t])
    requires x in w.txs ==> !Settled(w.txs[x])
    ensures ConfirmedSale(RunSave(w, t), x) ==> Earns(RunSave(w, t), t, x)
  {
  }

  lemma PlainStepEarned(w: World, t: nat, v: Verdict, x: string)
    requires WorldInv(w) && Can(w, Run(t, v)) && Subject(w, t) == x && Earned(w, x)
    requires !Saving(w.phases[t]) && !Earning(w.phases[t])
    ensures ConfirmedSale(RunHandler(w, t, v), x) ==>
      Reference(x, RunHandler(w, t, v).txs[x]) in RunHandler(w, t, v).ledger
  {
    if u :| Earns(w, u, x) { Serialised(w, u, t); }
    PlainStepKeepsTables(w, t, v);
  }

  lemma PlainStepKeepsTables(w: World, t: nat, v: Verdict)
    requires Can(w, Run(t, v)) && !Saving(w.phases[t]) && !Earning(w.phases[t])
    ensures RunHandler(w, t, v).txs == w.txs && RunHandler(w, t, v).ledger == w.ledger
  {
  }

  lemma OwnHandlerEarned(w: World, t: nat, v: Verdict, x: string)
    requires WorldInv(w) && Can(w, Run(t, v)) && Subject(w, t) == x && Earned(w, x)
    ensures Earned(RunHandler(w, t, v), x)
  {
    if Saving(w.phases[t]) {
      assert PhaseOk(w.phases[t], CreditsOf(w, x), RowOf(w, x));
      SavingStarts(w, t, x);
    } else if Earning(w.phases[t]) {
      EarningGoesOn(w, t, x);
    } else {
      PlainStepEarned(w, t, v, x);
    }
  }

  lemma ActionEarned(w: World, a: Action, x: string)
    requires WorldInv(w) && Smooth(w, a) && x in w.hashes && Earned(w, x)
    ensures Earned(Do(w, a), x)
  {
    if a.QueueStep? {
      QueueStepEarned(w, a.step, x);
    } else if !a.Run? {
      TableActionEarned(w, a, x);
    } else if Subject(w, a.ticket) == x {
      OwnHandlerEarned(w, a.ticket, a.verdict, x);
    } else {
      OwnRowOk(w, a.ticket);
      HandlerEffect(w, a.ticket, a.verdict);
      LedgerGrows(w, a.ticket, a.verdict);
      OtherHandlerEarned(w, Do(w, a), a.ticket, x);
    }
  }

  lemma {:induction false} SmoothRunEarned(w: World, actions: seq<Action>, x: string)
    requires WorldInv(w) && SmoothRun(w, actions) && x in w.hashes && Earned(w, x)
    ensures Possible(w, actions) && Earned(Outcome(w, actions), x)
    decreases |actions|
  {
    if actions != [] {
      ActionKeeps(w, actions[0]);
      ActionEarned(w, actions[0], x);
      IdsAreNotReused(w, actions[0], x);
      SmoothRunEarned(Do(w, actions[0]), actions[1..], x);
    }
  }

  /** Without crashes and failing calls: a sale stored unsettled, confirmed since and with no handler at work on it
      has its reference credited and in the ledger. */
  lemma {:induction false} ConfirmedSaleIsCredited(before: seq<Action>, x: string, tx: Tx, after: seq<Action>)
    requires SmoothRun(Begin, before)
    ensures Possible(Begin, before)
    ensures var w := Outcome(Begin, before);
      Can(w, Admit(x, tx)) && !Settled(tx) && SmoothRun(Do(w, Admit(x, tx)), after) ==>
        && Possible(Do(w, Admit(x, tx)), after)
        && var w' := Outcome(Do(w, Admit(x, tx)), after);
           ConfirmedSale(w', x) && (forall t :: Handles(w', t) ==> Subject(w', t) != x) ==>
             Reference(x, w'.txs[x]) in w'.ledger && CreditedReference(w', Reference(x, w'.txs[x]))
  {
    BeginInv();
    SmoothRunsKeep(Begin, before);
    RunKeepsBacked(Begin, before);
    var w := Outcome(Begin, before);
    if Can(w, Admit(x, tx)) && !Settled(tx) && SmoothRun(Do(w, Admit(x, tx)), after) {
      ActionKeeps(w, Admit(x, tx));
      ActionKeepsBacked(w, Admit(x, tx));
      SaleFrom(Do(w, Admit(x, tx)), after, x);
    }
  }

  lemma {:induction false} SaleFrom(w: World, after: seq<Action>, x: string)
    requires WorldInv(w) && LedgerBacked(w) && SmoothRun(w, after) && x in w.hashes && !ConfirmedSale(w, x)
    ensures Possible(w, after)
    ensures var w' := Outcome(w, after);
      ConfirmedSale(w', x) && (forall t :: Handles(w', t) ==> Subject(w', t) != x) ==>
        Reference(x, w'.txs[x]) in w'.ledger && CreditedReference(w', Reference(x, w'.txs[x]))
  {
    SmoothRunEarned(w, after, x);
    RunKeepsBacked(w, after);
    var w' := Outcome(w, after);
    if t :| Earns(w', t, x) { assert Handles(w', t); }
  }

  // ----- a logged sale -------------------------------------------------------

  /** The payment hash of `x` is set and in the ledger, and no handler has already decided to credit the sale. */
  ghost predicate LoggedSale(w: World, x: string, hash: string) {
    && x in w.hashes && w.hashes[x] == Some(hash) && hash != "" && hash in w.ledger
    && forall t :: t in w.phases && t in w.queue.claims && Subject(w, t) == x ==> !w.phases[t].EarnCrediting?
  }

  lemma StepKeepsLogged(w: World, step: Step, x: string, hash: string)
    requires Numbered(w.queue) && PhasesClaimed(w) && Can(w, QueueStep(step)) && LoggedSale(w, x, hash)
    ensures LoggedSale(Do(w, QueueStep(step)), x, hash)
  {
    var w' := Do(w, QueueStep(step));
    StepClaimsFrame(w.queue, step);
    forall t | t in w'.phases && t in w'.queue.claims && Subject(w', t) == x ensures !w'.phases[t].EarnCrediting? {
      if !(step.Poll? && t == w.queue.nextTicket) {
        assert t in w.phases && t in w.queue.claims;
      }
    }
  }

  /** Its own handler skips the credit, whatever it does otherwise. */
  lemma LoggedEarnSkips(w: World, t: nat, x: string, hash: string)
    requires t in w.phases && t in w.queue.claims && Subject(w, t) == x && Keyed(w) && LoggedSale(w, x, hash)
    requires Earning(w.phases[t])
    ensures var w' := RunEarn(w, t);
      t in w'.phases && !w'.phases[t].EarnCrediting? && CreditsOf(w', x) == CreditsOf(w, x)
  {
  }

  lemma OthersNeverCredit(w: World, t: nat, v: Verdict)
    requires Can(w, Run(t, v)) && !Earning(w.phases[t])
    ensures var w' := RunHandler(w, t, v);
      t in w'.phases && !w'.phases[t].EarnCrediting? && w'.credits == w.credits
  {
  }

  lemma RunKeepsLogged(w: World, w': World, t: nat, x: string, hash: string)
    requires t in w.queue.claims && OnlyOwn(w, w', t) && w.ledger <= w'.ledger && LoggedSale(w, x, hash)
    requires Subject(w, t) == x ==> !w'.phases[t].EarnCrediting?
    ensures LoggedSale(w', x, hash)
  {
  }

  lemma ActionKeepsLogged(w: World, a: Action, x: string, hash: string)
    requires WorldInv(w) && Can(w, a) && LoggedSale(w, x, hash)
    ensures LoggedSale(Do(w, a), x, hash) && CreditsOf(Do(w, a), x) == CreditsOf(w, x)
  {
    if a.QueueStep? {
      StepKeepsLogged(w, a.step, x, hash);
    } else if a.Run? {
      var t := a.ticket;
      OwnRowOk(w, t);
      HandlerEffect(w, t, a.verdict);
      LedgerGrows(w, t, a.verdict);
      if Subject(w, t) == x {
        if Earning(w.phases[t]) { LoggedEarnSkips(w, t, x, hash); } else { OthersNeverCredit(w, t, a.verdict); }
      }
      RunKeepsLogged(w, Do(w, a), t, x, hash);
    } else {
      HashStays(w, a, x);
    }
  }

  /** Once a sale's payment hash is in the ledger and no handler is about to credit it, no run credits it, retries and
      crashes included. */
  lemma {:induction false} LoggedSaleIsNeverCredited(w: World, actions: seq<Action>, x: string, hash: string)
    requires WorldInv(w) && Possible(w, actions) && LoggedSale(w, x, hash)
    ensures CreditsOf(Outcome(w, actions), x) == CreditsOf(w, x)
    decreases |actions|
  {
    if actions != [] {
      ActionKeeps(w, actions[0]);
      ActionKeepsLogged(w, actions[0], x, hash);
      LoggedSaleIsNeverCredited(Do(w, actions[0]), actions[1..], x, hash);
    }
  }

  // ----- submissions ---------------------------------------------------------

  /** A submission queues one verification, of five attempts from one second's backoff on, under `verify:` and the
      payment hash; submitting again changes nothing. */
  lemma SubmittedOnce(w: World, x: string)
    requires Numbered(w.queue) && Can(w, Submit(x)) && w.queue.accepting
    ensures var w', key := Do(w, Submit(x)), "verify:" + w.txs[x].hash.value;
      && HasKey(w'.queue, key) && Can(w', Submit(x)) && Do(w', Submit(x)) == w'
      && (!HasKey(w.queue, key) ==>
            var id := w.queue.nextId;
            && id in w'.queue.jobs && Verifies(w', id, x) && w'.queue.jobs[id].key == key
            && w'.queue.jobs[id].maxAttempts == 5 && w'.queue.jobs[id].backoffMs == 1000
            && w'.queue.jobs[id].status.Queued? && Due(w'.queue, id))
  {
    var key := "verify:" + w.txs[x].hash.value;
    if !HasKey(w.queue, key) { assert Do(w, Submit(x)).queue.jobs[w.queue.nextId].key == key; }
  }

  // ----- a transaction that needs no verification ----------------------------

  lemma ReadingReturns(w: World, t: nat, v: Verdict)
    requires Can(w, Run(t, v)) && w.phases[t].Reading?
    requires Subject(w, t) in w.txs ==> w.txs[Subject(w, t)].status.Failed?
    ensures Do(w, Run(t, v)) == w.(phases := w.phases[t := Returned])
  {
  }

  /** A handler that finds its transaction gone or failed returns at once, and its job is completed. */
  lemma NothingToVerify(w: World, t: nat, v: Verdict)
    requires ClaimsHold(w.queue) && Can(w, Run(t, v)) && w.phases[t].Reading?
    requires Subject(w, t) in w.txs ==> w.txs[Subject(w, t)].status.Failed?
    ensures var w1 := Do(w, Run(t, v));
      && Smooth(w1, QueueStep(Succeed(t)))
      && var w2, id := Do(w1, QueueStep(Succeed(t))), w.queue.claims[t].id;
         && id in w2.queue.jobs && w2.queue.jobs[id].status.Completed?
         && w2.txs == w.txs && w2.credits == w.credits
  {
    ReadingReturns(w, t, v);
  }
}
