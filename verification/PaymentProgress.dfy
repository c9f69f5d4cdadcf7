/** Runs without crashes and failing calls: what they keep of a verification job, whose handler always ends, and of its
    transaction, which once settled stays settled. */
module PaymentProgress {
  import opened Options
  import opened JobQueue
  import opened JobQueueSafety
  import opened PaymentJob
  import opened PaymentSafety

  /** No crash, no shutdown, and database and service calls do not throw: a verification handler fails only by throwing
      for a transient verdict, or because the row it saves is gone. Rows may be reaped at any time. */
  predicate Smooth(w: World, a: Action) {
    && Can(w, a)
    && match a
       case QueueStep(step) =>
         && !step.Crash? && !step.Abandon? && !step.Stop?
         && (step.Fail? && step.ticket in w.phases ==> w.phases[step.ticket].Throwing?)
       case _ => true
  }

  predicate SmoothRun(w: World, actions: seq<Action>)
    decreases |actions|
  {
    actions != [] ==> Smooth(w, actions[0]) && SmoothRun(Do(w, actions[0]), actions[1..])
  }

  // ----- the invariant -------------------------------------------------------

  predicate VerifyRowOk(j: Job, row: Option<Tx>) {
    j.name == VERIFY ==>
      && j.maxAttempts == 5
      && (row.Some? ==> !j.status.Dead? && (j.status.Completed? ==> Settled(row.value)))
  }

  predicate SmoothPhase(p: Phase, c: Context, row: Option<Tx>) {
    row.Some? ==>
      && (p.SavingRetry? || p.Throwing? ==> c.attempt < c.maxAttempts)
      && (p.QueueingReceipt? || p.Pledging? || Earning(p) || p.Granting? || p.Returned? ==> Settled(row.value))
  }

  ghost predicate SmoothPhases(w: World) {
    && (forall t :: t in w.queue.claims && w.queue.claims[t].doc.name == VERIFY ==> t in w.phases)
    && (forall t :: t in w.phases && t in w.queue.claims ==>
          SmoothPhase(w.phases[t], ContextOf(w, t), RowOf(w, Subject(w, t))))
  }

  ghost predicate VerifyRowsOk(w: World) {
    forall id :: id in w.queue.jobs ==> VerifyRowOk(w.queue.jobs[id], RowOf(w, w.queue.jobs[id].payload))
  }

  ghost predicate SmoothInv(w: World) {
    && WorldInv(w) && Undisturbed(w.queue) && w.queue.accepting
    && VerifyRowsOk(w) && SmoothPhases(w)
  }

  // ----- settled rows --------------------------------------------------------

  /** Nothing rewrites or reaps a settled row: not the reaper, which takes pending rows only, and not a handler,
      which saves only rows it has read as unsettled and that no other handler can have settled meanwhile. */
  lemma SettledStays(w: World, a: Action, x: string)
    requires WorldInv(w) && Can(w, a) && x in w.txs && Settled(w.txs[x])
    ensures x in Do(w, a).txs && Do(w, a).txs[x] == w.txs[x]
  {
    if a.Run? { RunLeavesSettled(w, a.ticket, a.verdict, x); }
  }

  lemma RunLeavesSettled(w: World, t: nat, v: Verdict, x: string)
    requires PhasesOk(w) && Can(w, Run(t, v)) && x in w.txs && Settled(w.txs[x])
    ensures x in RunHandler(w, t, v).txs && RunHandler(w, t, v).txs[x] == w.txs[x]
  {
    assert PhaseOk(w.phases[t], CreditsOf(w, Subject(w, t)), RowOf(w, Subject(w, t)));
  }

  /** Once confirmed or failed, a transaction keeps that status, carries no expiry, and is never reapable again. */
  lemma {:induction false} SettledForever(w: World, actions: seq<Action>, x: string, later: int)
    requires WorldInv(w) && Possible(w, actions) && x in w.txs && Settled(w.txs[x])
    ensures var w' := Outcome(w, actions);
      x in w'.txs && w'.txs[x] == w.txs[x] && w'.txs[x].expiresAt.None? && !Reapable(w'.txs[x], later)
    decreases |actions|
  {
    if actions != [] {
      ActionKeeps(w, actions[0]);
      SettledStays(w, actions[0], x);
      SettledForever(Do(w, actions[0]), actions[1..], x, later);
    }
  }

  predicate Final(s: TxStatus) { s in {TxStatus.Confirmed, TxStatus.Failed, Expired, Refunded, Disputed} }

  /** Over every run, a row with one of the final statuses carries no expiry and is out of the reaper's reach. */
  lemma {:induction false} FinalRowsNeverExpire(actions: seq<Action>, x: string, later: int)
    requires Possible(Begin, actions)
    ensures var w := Outcome(Begin, actions);
      x in w.txs && Final(w.txs[x].status) ==> w.txs[x].expiresAt.None? && !Reapable(w.txs[x], later)
  {
    BeginInv();
    RunsKeep(Begin, actions);
    var w := Outcome(Begin, actions);
    if x in w.txs && Final(w.txs[x].status) { assert TerminalStatus(w.txs[x].status); }
  }

  // ----- the handler ends ----------------------------------------------------

  function StepsLeft(p: Phase): nat {
    match p
    case Reading => 9
    case Verifying => 8
    case SavingConfirmed => 7
    case SavingFailed => 7
    case SavingRetry => 7
    case EarnChecking => 6
    case EarnCrediting => 5
    case EarnLogging => 4
    case Pledging => 3
    case Granting => 3
    case QueueingReceipt => 2
    case Returned => 0
    case Throwing => 0
  }

  lemma SaveEnds(w: World, t: nat)
    requires t in w.phases && t in w.queue.claims && Saving(w.phases[t])
    ensures t in RunSave(w, t).phases && StepsLeft(RunSave(w, t).phases[t]) < 7
  {
  }

  lemma EarnEnds(w: World, t: nat)
    requires t in w.phases && t in w.queue.claims && Earning(w.phases[t])
    ensures t in RunEarn(w, t).phases && StepsLeft(RunEarn(w, t).phases[t]) < StepsLeft(w.phases[t])
  {
  }

  lemma ReceiptEnds(w: World, t: nat)
    requires t in w.phases && t in w.queue.claims
    ensures t in RunReceipt(w, t).phases && StepsLeft(RunReceipt(w, t).phases[t]) == 0
  {
  }

  /** Every action of a handler brings it nearer to returning or throwing, so it ends within nine. */
  lemma HandlerEnds(w: World, t: nat, v: Verdict)
    requires Can(w, Run(t, v))
    ensures t in RunHandler(w, t, v).phases
    ensures StepsLeft(RunHandler(w, t, v).phases[t]) < StepsLeft(w.phases[t]) <= 9
  {
    var p := w.phases[t];
    if Saving(p) {
      SaveEnds(w, t);
    } else if Earning(p) {
      EarnEnds(w, t);
    } else if p.QueueingReceipt? {
      ReceiptEnds(w, t);
    }
  }

  // ----- each smooth action keeps the invariant ------------------------------

  /** What a queue step does to one row. */
  predicate RowStep(j: Job, j': Job) {
    || j' == j
    || (SameIdentity(j, j') && j'.status.Active?)
    || (SameIdentity(j, j') && j'.status.Retrying?)
  }

  lemma SmoothSettle(w: World, step: Step, id: nat)
    requires SmoothInv(w) && Smooth(w, QueueStep(step)) && id in w.queue.jobs && w.queue.jobs[id].name == VERIFY
    requires (step.Succeed? || step.Fail?) && w.queue.claims[step.ticket].id == id
    ensures var t, row := step.ticket, RowOf(w, w.queue.jobs[id].payload);
      && w.queue.jobs[id] == w.queue.claims[t].doc
      && (row.Some? && step.Succeed? ==> Settled(row.value))
      && (row.Some? && step.Fail? ==> w.queue.jobs[id].attemptsMade < w.queue.jobs[id].maxAttempts)
  {
  }

  /** In an undisturbed queue of one worker, starting recovers nothing. */
  lemma StartLeavesRow(s: State, id: nat)
    requires Undisturbed(s) && OneWorker(s, Start) && id in s.jobs
    ensures id in DoStart(s).jobs && DoStart(s).jobs[id] == s.jobs[id]
  {
  }

  /** The row's next version: unchanged, claimed, waiting to be retried, or, while its transaction is there, completed
      with the transaction settled. */
  predicate SmoothNext(j: Job, j': Job, row: Option<Tx>) {
    RowStep(j, j') || (SameIdentity(j, j') && (row.Some? ==> j'.status.Completed? && Settled(row.value)))
  }

  lemma SettledRowStep(s: State, step: Step, id: nat, row: Option<Tx>)
    requires Enabled(s, step) && (step.Succeed? || step.Fail?) && id in s.jobs
    requires s.claims[step.ticket].id == id ==>
      && s.jobs[id] == s.claims[step.ticket].doc
      && (row.Some? && step.Succeed? ==> Settled(row.value))
      && (row.Some? && step.Fail? ==> s.jobs[id].attemptsMade < s.jobs[id].maxAttempts)
    ensures id in Apply(s, step).jobs && SmoothNext(s.jobs[id], Apply(s, step).jobs[id], row)
  {
  }

  lemma SmoothRowStep(w: World, step: Step, id: nat)
    requires SmoothInv(w) && Smooth(w, QueueStep(step)) && id in w.queue.jobs && w.queue.jobs[id].name == VERIFY
    ensures id in Apply(w.queue, step).jobs
    ensures SmoothNext(w.queue.jobs[id], Apply(w.queue, step).jobs[id], RowOf(w, w.queue.jobs[id].payload))
  {
    if step.Succeed? || step.Fail? {
      if w.queue.claims[step.ticket].id == id { SmoothSettle(w, step, id); }
      SettledRowStep(w.queue, step, id, RowOf(w, w.queue.jobs[id].payload));
    } else if step.Start? {
      StartLeavesRow(w.queue, id);
    }
  }

  lemma SmoothQueueRows(w: World, step: Step)
    requires SmoothInv(w) && Smooth(w, QueueStep(step))
    ensures VerifyRowsOk(Do(w, QueueStep(step)))
  {
    StepRowsFrame(w.queue, step);
    forall id | id in w.queue.jobs && w.queue.jobs[id].name == VERIFY
      ensures id in Apply(w.queue, step).jobs
      ensures SmoothNext(w.queue.jobs[id], Apply(w.queue, step).jobs[id], RowOf(w, w.queue.jobs[id].payload))
    {
      SmoothRowStep(w, step, id);
    }
    NextRowsOk(w, step, Apply(w.queue, step));
  }

  lemma NextRowsOk(w: World, step: Step, q: State)
    requires VerifyRowsOk(w) && QueueStepEnabled(w, step) && RowsFrame(w.queue, q, step)
    requires forall id :: id in w.queue.jobs && w.queue.jobs[id].name == VERIFY ==>
      id in q.jobs && SmoothNext(w.queue.jobs[id], q.jobs[id], RowOf(w, w.queue.jobs[id].payload))
    ensures VerifyRowsOk(w.(queue := q, phases := PhasesAfter(w, step)))
  {
  }

  lemma FramedPhases(w: World, step: Step, q: State)
    requires Numbered(w.queue) && PhasesClaimed(w) && SmoothPhases(w) && ClaimsFrame(w.queue, q, step)
    requires forall t :: Releases(step, t) ==> t !in q.claims
    ensures SmoothPhases(w.(queue := q, phases := PhasesAfter(w, step)))
  {
    var w' := w.(queue := q, phases := PhasesAfter(w, step));
    forall t | t in q.claims && q.claims[t].doc.name == VERIFY ensures t in w'.phases {
      FramedClaim(w, step, q, t);
    }
    forall t | t in w'.phases && t in q.claims
      ensures SmoothPhase(w'.phases[t], ContextOf(w', t), RowOf(w', Subject(w', t)))
    {
      FramedPhase(w, step, q, t);
    }
  }

  lemma FramedClaim(w: World, step: Step, q: State, t: nat)
    requires Numbered(w.queue) && SmoothPhases(w) && ClaimsFrame(w.queue, q, step)
    requires t in q.claims && !Releases(step, t) && q.claims[t].doc.name == VERIFY
    ensures t in PhasesAfter(w, step)
  {
  }

  lemma FramedPhase(w: World, step: Step, q: State, t: nat)
    requires Numbered(w.queue) && PhasesClaimed(w) && SmoothPhases(w) && ClaimsFrame(w.queue, q, step)
    requires t in q.claims && !Releases(step, t) && t in PhasesAfter(w, step)
    ensures var doc := q.claims[t].doc;
      SmoothPhase(PhasesAfter(w, step)[t], Context(doc.attemptsMade, doc.maxAttempts), RowOf(w, doc.payload))
  {
  }

  lemma SmoothQueueStep(w: World, step: Step)
    requires SmoothInv(w) && Smooth(w, QueueStep(step))
    ensures SmoothInv(Do(w, QueueStep(step)))
  {
    QueueStepKeeps(w, step);
    StepKeepsUndisturbed(w.queue, step);
    SmoothQueueRows(w, step);
    StepClaimsFrame(w.queue, step);
    StillAccepting(w.queue, step);
    FramedPhases(w, step, Apply(w.queue, step));
  }

  lemma StillAccepting(s: State, step: Step)
    requires Enabled(s, step) && s.accepting && !step.Stop? && !step.Crash?
    ensures Apply(s, step).accepting
    ensures forall t :: Releases(step, t) ==> t !in Apply(s, step).claims
  {
  }

  /** A handler in a smooth phase. */
  predicate SmoothOwn(w: World, t: nat)
    requires t in w.queue.claims
  {
    t in w.phases && SmoothPhase(w.phases[t], ContextOf(w, t), RowOf(w, Subject(w, t)))
  }

  lemma SmoothSave(w: World, t: nat)
    requires t in w.queue.claims && SmoothOwn(w, t) && Saving(w.phases[t])
    ensures SmoothOwn(RunSave(w, t), t)
  {
  }

  lemma SmoothEarn(w: World, t: nat)
    requires t in w.queue.claims && SmoothOwn(w, t) && Earning(w.phases[t])
    ensures SmoothOwn(RunEarn(w, t), t)
  {
  }

  lemma SmoothReceipt(w: World, t: nat)
    requires t in w.queue.claims && SmoothOwn(w, t) && w.phases[t].QueueingReceipt?
    requires w.queue.accepting && Located(w.hashes, Subject(w, t))
    ensures t in RunReceipt(w, t).queue.claims && SmoothOwn(RunReceipt(w, t), t)
  {
  }

  lemma SmoothPlain(w: World, t: nat, v: Verdict)
    requires Can(w, Run(t, v)) && SmoothOwn(w, t)
    requires !Saving(w.phases[t]) && !Earning(w.phases[t]) && !w.phases[t].QueueingReceipt?
    ensures SmoothOwn(RunHandler(w, t, v), t)
  {
  }

  lemma SmoothHandler(w: World, t: nat, v: Verdict)
    requires SmoothInv(w) && Can(w, Run(t, v))
    ensures t in RunHandler(w, t, v).queue.claims && SmoothOwn(RunHandler(w, t, v), t)
  {
    SmoothSubject(w, t);
    KnownSubject(w, t);
    SmoothAdvance(w, t, v);
  }

  lemma SmoothAdvance(w: World, t: nat, v: Verdict)
    requires Can(w, Run(t, v)) && SmoothOwn(w, t) && w.queue.accepting && Located(w.hashes, Subject(w, t))
    ensures t in RunHandler(w, t, v).queue.claims && SmoothOwn(RunHandler(w, t, v), t)
  {
    var p := w.phases[t];
    if Saving(p) {
      SmoothSave(w, t);
    } else if Earning(p) {
      SmoothEarn(w, t);
    } else if p.QueueingReceipt? {
      SmoothReceipt(w, t);
    } else {
      SmoothPlain(w, t, v);
    }
  }

  lemma SmoothSubject(w: World, t: nat)
    requires SmoothInv(w) && t in w.phases
    ensures t in w.queue.claims && SmoothOwn(w, t)
  {
  }

  lemma SmoothRunKeeps(w: World, t: nat, v: Verdict)
    requires SmoothInv(w) && Can(w, Run(t, v))
    ensures SmoothInv(RunHandler(w, t, v))
  {
    var w' := RunHandler(w, t, v);
    RunKeeps(w, t, v);
    OwnRowOk(w, t);
    HandlerEffect(w, t, v);
    SmoothHandler(w, t, v);
    RunKeepsSmoothPhases(w, w', t);
    RunKeepsVerifyRows(w, w', t, v);
    RunKeepsUndisturbed(w, w', t);
  }

  lemma RunKeepsUndisturbed(w: World, w': World, t: nat)
    requires Inv(w.queue) && Undisturbed(w.queue) && w.queue.accepting && t in w.queue.claims && OnlyOwn(w, w', t)
    ensures Undisturbed(w'.queue) && w'.queue.accepting
  {
  }

  lemma RunKeepsSmoothPhases(w: World, w': World, t: nat)
    requires Inv(w.queue) && Keyed(w) && PhasesClaimed(w) && SmoothPhases(w) && t in w.phases
    requires OnlyOwn(w, w', t) && SmoothOwn(w', t)
    ensures SmoothPhases(w')
  {
    forall u | u in w'.phases && u in w'.queue.claims
      ensures SmoothPhase(w'.phases[u], ContextOf(w', u), RowOf(w', Subject(w', u)))
    {
      if u != t {
        if Subject(w, u) == Subject(w, t) { Serialised(w, u, t); }
        assert SmoothPhase(w.phases[u], ContextOf(w, u), RowOf(w, Subject(w, u)));
        assert RowOf(w', Subject(w, u)) == RowOf(w, Subject(w, u));
      }
    }
  }

  lemma RunKeepsVerifyRows(w: World, w': World, t: nat, v: Verdict)
    requires PhasesOk(w) && VerifyRowsOk(w) && Can(w, Run(t, v)) && w' == RunHandler(w, t, v)
    requires OnlyOwn(w, w', t)
    ensures VerifyRowsOk(w')
  {
    forall id | id in w'.queue.jobs ensures VerifyRowOk(w'.queue.jobs[id], RowOf(w', w'.queue.jobs[id].payload)) {
      if w'.queue.jobs[id].name == VERIFY {
        NoNewVerifyRow(w, w', t, id);
        assert VerifyRowOk(w.queue.jobs[id], RowOf(w, w.queue.jobs[id].payload));
        RowAfterRun(w, t, v, w.queue.jobs[id].payload);
      }
    }
  }

  lemma NoNewVerifyRow(w: World, w': World, t: nat, id: nat)
    requires t in w.queue.claims && OnlyOwn(w, w', t) && id in w'.queue.jobs && w'.queue.jobs[id].name == VERIFY
    ensures id in w.queue.jobs && w'.queue.jobs[id] == w.queue.jobs[id]
  {
  }

  lemma RowAfterRun(w: World, t: nat, v: Verdict, y: string)
    requires PhasesOk(w) && Can(w, Run(t, v))
    ensures var row := RowOf(RunHandler(w, t, v), y);
      row.Some? ==> y in w.txs && (Settled(w.txs[y]) ==> Settled(row.value))
  {
  }

  lemma SmoothAdmit(w: World, x: string, tx: Tx)
    requires SmoothInv(w) && Can(w, Admit(x, tx))
    ensures SmoothInv(Do(w, Admit(x, tx)))
  {
    AdmitKeeps(w, x, tx);
    OneRowChanged(w, Do(w, Admit(x, tx)), x);
  }

  lemma SmoothLocate(w: World, x: string, hash: string)
    requires SmoothInv(w) && Can(w, Locate(x, hash))
    ensures SmoothInv(Do(w, Locate(x, hash)))
  {
    LocateKeeps(w, x, hash);
    OneRowChanged(w, Do(w, Locate(x, hash)), x);
  }

  lemma SmoothReap(w: World, x: string)
    requires SmoothInv(w) && Can(w, Reap(x))
    ensures SmoothInv(Do(w, Reap(x)))
  {
    ReapKeeps(w, x);
    OneRowChanged(w, Do(w, Reap(x)), x);
  }

  /** Changing a row no job is for, or reaping a row, leaves every job and handler as smooth as it was. */
  lemma OneRowChanged(w: World, w': World, x: string)
    requires SmoothInv(w) && w'.queue == w.queue && w'.phases == w.phases
    requires !Located(w.hashes, x) || x !in w'.txs
    requires forall y :: y != x ==> RowOf(w', y) == RowOf(w, y)
    ensures VerifyRowsOk(w') && SmoothPhases(w')
  {
    forall id | id in w'.queue.jobs ensures VerifyRowOk(w'.queue.jobs[id], RowOf(w', w'.queue.jobs[id].payload)) {
      assert VerifyRowOk(w.queue.jobs[id], RowOf(w, w.queue.jobs[id].payload));
      assert KeyedByHash(w.queue.jobs[id], w.hashes);
    }
    forall t | t in w'.phases && t in w'.queue.claims
      ensures SmoothPhase(w'.phases[t], ContextOf(w', t), RowOf(w', Subject(w', t)))
    {
      assert SmoothPhase(w.phases[t], ContextOf(w, t), RowOf(w, Subject(w, t)));
      KnownSubject(w, t);
    }
  }

  lemma SmoothSubmit(w: World, x: string)
    requires SmoothInv(w) && Smooth(w, Submit(x))
    ensures SmoothInv(Do(w, Submit(x)))
  {
    SubmitKeeps(w, x);
    SubmitStaysSmooth(w, x);
  }

  lemma SubmitStaysSmooth(w: World, x: string)
    requires Numbered(w.queue) && Undisturbed(w.queue) && w.queue.accepting && VerifyRowsOk(w) && SmoothPhases(w)
    requires Can(w, Submit(x))
    ensures var w' := Do(w, Submit(x));
      Undisturbed(w'.queue) && w'.queue.accepting && VerifyRowsOk(w') && SmoothPhases(w')
  {
    var w' := Do(w, Submit(x));
    OtherKeepsUndisturbed(w.queue, Enqueue(VERIFY, x, 5, 1000, VerifyKey(w.txs[x].hash.value)));
    EnqueueKeepsVerifyRows(w, x, VerifyKey(w.txs[x].hash.value));
    SameSmoothPhases(w, w');
  }

  lemma SameSmoothPhases(w: World, w': World)
    requires SmoothPhases(w) && w'.queue.claims == w.queue.claims && w'.phases == w.phases && w'.txs == w.txs
    ensures SmoothPhases(w')
  {
  }

  lemma EnqueueKeepsVerifyRows(w: World, x: string, key: string)
    requires VerifyRowsOk(w)
    ensures VerifyRowsOk(w.(queue := DoEnqueue(w.queue, VERIFY, x, 5, 1000, key)))
  {
  }

  lemma SmoothActionKeeps(w: World, a: Action)
    requires SmoothInv(w) && Smooth(w, a)
    ensures SmoothInv(Do(w, a))
  {
    match a
    case QueueStep(step) => SmoothQueueStep(w, step);
    case Admit(x, tx) => SmoothAdmit(w, x, tx);
    case Locate(x, hash) => SmoothLocate(w, x, hash);
    case Submit(x) => SmoothSubmit(w, x);
    case Reap(x) => SmoothReap(w, x);
    case Run(t, v) => SmoothRunKeeps(w, t, v);
  }

  lemma {:induction false} SmoothRunsKeep(w: World, actions: seq<Action>)
    requires SmoothInv(w) && SmoothRun(w, actions)
    ensures Possible(w, actions) && SmoothInv(Outcome(w, actions))
    decreases |actions|
  {
    if actions != [] {
      SmoothActionKeeps(w, actions[0]);
      SmoothRunsKeep(Do(w, actions[0]), actions[1..]);
    }
  }
}
