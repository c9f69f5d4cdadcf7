/** A verification job ends: in runs without crashes and failing calls it takes boundedly many actions of its own, and
    until it is completed or dead one of them can be taken. */
module PaymentLiveness {
  import opened JobQueue
  import opened JobQueueSafety
  import opened JobQueueFairness
  import opened PaymentJob
  import opened PaymentSafety
  import opened PaymentProgress
  import opened PaymentCompletion

  predicate Holds(w: World, t: nat, id: nat) {
    t in w.queue.claims && w.queue.claims[t].id == id && t in w.phases
  }

  /** The job's own actions: its claim, those of its handler, and the handler's outcome. */
  predicate Own(w: World, a: Action, id: nat) {
    match a
    case QueueStep(Poll(pick)) => pick == id
    case QueueStep(Succeed(t)) => Holds(w, t, id)
    case QueueStep(Fail(t, _)) => Holds(w, t, id)
    case Run(t, _) => Holds(w, t, id)
    case _ => false
  }

  function OwnActions(w: World, actions: seq<Action>, id: nat): nat
    requires Possible(w, actions)
    decreases |actions|
  {
    if actions == [] then 0
    else (if Own(w, actions[0], id) then 1 else 0) + OwnActions(Do(w, actions[0]), actions[1..], id)
  }

  // ----- boundedly many ------------------------------------------------------

  /** One claim, nine actions of the handler and one outcome for each attempt left. */
  function AttemptsCost(j: Job): int { 11 * (j.maxAttempts - j.attemptsMade) }

  ghost predicate Budget(w: World, id: nat, n: int) {
    && id in w.queue.jobs && 0 <= AttemptsCost(w.queue.jobs[id]) <= n
    && forall t :: Holds(w, t, id) ==> AttemptsCost(w.queue.jobs[id]) + StepsLeft(w.phases[t]) + 1 <= n
  }

  /** The rest of the invariant that the count needs. */
  ghost predicate Counted(w: World) {
    Inv(w.queue) && Undisturbed(w.queue) && PhasesClaimed(w) && VerifyRowsOk(w) && ClaimsVerified(w)
  }

  ghost predicate ClaimsVerified(w: World) {
    forall t :: t in w.queue.claims && w.queue.claims[t].doc.name == VERIFY ==> t in w.phases
  }

  predicate IsVerify(w: World, id: nat) { id in w.queue.jobs && w.queue.jobs[id].name == VERIFY }

  lemma PollSpends(w: World, id: nat, n: int)
    requires Counted(w) && IsVerify(w, id) && Budget(w, id, n) && Can(w, QueueStep(Poll(id)))
    ensures Budget(Do(w, QueueStep(Poll(id))), id, n - 1)
  {
    assert RowOk(w.queue.jobs[id], RecoveriesOf(w.queue, id), CallsOf(w.queue, id));
    assert VerifyRowOk(w.queue.jobs[id], RowOf(w, w.queue.jobs[id].payload));
  }

  lemma OutcomeSpends(w: World, step: Step, id: nat, n: int)
    requires ClaimsHold(w.queue) && ClaimsDistinct(w.queue) && Budget(w, id, n) && Can(w, QueueStep(step))
    requires (step.Succeed? || step.Fail?) && Holds(w, step.ticket, id)
    ensures Budget(Do(w, QueueStep(step)), id, n - 1)
  {
  }

  /** A handler's action changes its own phase and no claim. */
  ghost predicate PhaseMoved(w: World, w': World, t: nat) {
    t in w'.phases && w'.queue.claims == w.queue.claims && w'.phases == w.phases[t := w'.phases[t]]
  }

  lemma HandlerMovesPhase(w: World, t: nat, v: Verdict)
    requires WorldInv(w) && Can(w, Run(t, v))
    ensures PhaseMoved(w, RunHandler(w, t, v), t)
  {
    OwnRowOk(w, t);
    HandlerEffect(w, t, v);
  }

  lemma HandlerSpends(w: World, t: nat, v: Verdict, id: nat, n: int)
    requires Numbered(w.queue) && ClaimsDistinct(w.queue) && Budget(w, id, n) && Can(w, Run(t, v)) && Holds(w, t, id)
    requires PhaseMoved(w, RunHandler(w, t, v), t)
    ensures Budget(RunHandler(w, t, v), id, n - 1)
  {
    HandlerEnds(w, t, v);
    HandlerKeepsJob(w, t, v, id);
  }

  /** Another action leaves the job's handler and attempts alone. */
  ghost predicate LeavesAlone(w: World, w': World, id: nat) {
    && id in w.queue.jobs && id in w'.queue.jobs
    && w'.queue.jobs[id].attemptsMade == w.queue.jobs[id].attemptsMade
    && w'.queue.jobs[id].maxAttempts == w.queue.jobs[id].maxAttempts
    && forall t :: Holds(w', t, id) ==> Holds(w, t, id) && w'.phases[t] == w.phases[t]
  }

  lemma PollLeavesAlone(w: World, pick: nat, id: nat)
    requires Numbered(w.queue) && PhasesClaimed(w) && id in w.queue.jobs && pick != id && Can(w, QueueStep(Poll(pick)))
    ensures LeavesAlone(w, Do(w, QueueStep(Poll(pick))), id)
  {
  }

  lemma OutcomeLeavesAlone(w: World, step: Step, id: nat)
    requires (step.Succeed? || step.Fail?) && id in w.queue.jobs && Can(w, QueueStep(step))
    ensures LeavesAlone(w, Do(w, QueueStep(step)), id)
  {
  }

  lemma QuietStepLeavesAlone(w: World, step: Step, id: nat)
    requires Numbered(w.queue) && id in w.queue.jobs && Can(w, QueueStep(step))
    requires step.Enqueue? || step.Start? || step.Tick?
    ensures LeavesAlone(w, Do(w, QueueStep(step)), id)
  {
  }

  lemma QueueStepLeavesAlone(w: World, step: Step, id: nat)
    requires Counted(w) && id in w.queue.jobs && Smooth(w, QueueStep(step)) && !Own(w, QueueStep(step), id)
    ensures LeavesAlone(w, Do(w, QueueStep(step)), id)
  {
    if step.Poll? {
      PollLeavesAlone(w, step.pick, id);
    } else if step.Succeed? || step.Fail? {
      OutcomeLeavesAlone(w, step, id);
    } else {
      QuietStepLeavesAlone(w, step, id);
    }
  }

  lemma OtherActionLeavesAlone(w: World, a: Action, id: nat)
    requires Numbered(w.queue) && id in w.queue.jobs && Can(w, a) && !a.QueueStep? && !Own(w, a, id)
    requires a.Run? ==> PhaseMoved(w, Do(w, a), a.ticket)
    ensures LeavesAlone(w, Do(w, a), id)
  {
    OtherActionKeepsJob(w, a, id);
  }

  lemma AloneKeepsBudget(w: World, w': World, id: nat, n: int)
    requires Budget(w, id, n) && LeavesAlone(w, w', id)
    ensures Budget(w', id, n)
  {
  }

  lemma ActionSpends(w: World, a: Action, id: nat, n: int)
    requires Counted(w) && IsVerify(w, id) && Budget(w, id, n) && Smooth(w, a)
    requires a.Run? ==> PhaseMoved(w, Do(w, a), a.ticket)
    ensures Budget(Do(w, a), id, if Own(w, a, id) then n - 1 else n)
  {
    if !Own(w, a, id) {
      if a.QueueStep? { QueueStepLeavesAlone(w, a.step, id); } else { OtherActionLeavesAlone(w, a, id); }
      AloneKeepsBudget(w, Do(w, a), id, n);
    } else if a.Run? {
      HandlerSpends(w, a.ticket, a.verdict, id, n);
    } else if a.step.Poll? {
      PollSpends(w, id, n);
    } else {
      OutcomeSpends(w, a.step, id, n);
    }
  }

  lemma SmoothIsCounted(w: World)
    requires SmoothInv(w)
    ensures Counted(w)
  {
  }

  lemma {:induction false} OwnActionsBounded(w: World, actions: seq<Action>, id: nat, n: int)
    requires SmoothInv(w) && SmoothRun(w, actions) && IsVerify(w, id) && Budget(w, id, n)
    ensures Possible(w, actions) && OwnActions(w, actions, id) <= n
    decreases |actions|
  {
    if actions != [] {
      var w' := Do(w, actions[0]);
      SmoothIsCounted(w);
      if actions[0].Run? { HandlerMovesPhase(w, actions[0].ticket, actions[0].verdict); }
      ActionSpends(w, actions[0], id, n);
      SmoothActionKeeps(w, actions[0]);
      JobStays(w, actions[0], id, w.queue.jobs[id].payload);
      OwnActionsBounded(w', actions[1..], id, if Own(w, actions[0], id) then n - 1 else n);
    }
  }

  lemma AttemptsInBounds(w: World, id: nat)
    requires RowsOk(w.queue) && Undisturbed(w.queue) && VerifyRowsOk(w) && IsVerify(w, id)
    ensures w.queue.jobs[id].attemptsMade <= w.queue.jobs[id].maxAttempts == 5
  {
    var j := w.queue.jobs[id];
    assert RowOk(j, RecoveriesOf(w.queue, id), CallsOf(w.queue, id));
    assert VerifyRowOk(j, RowOf(w, j.payload));
  }

  /** Five attempts of at most eleven actions. */
  lemma FullBudget(w: World, id: nat)
    requires ClaimsHold(w.queue) && Tended(w.queue) && id in w.queue.jobs
    requires w.queue.jobs[id].attemptsMade <= w.queue.jobs[id].maxAttempts == 5
    ensures Budget(w, id, 55)
  {
  }

  // ----- until it is over one of them can be taken -----------------------------

  /** The poll timer runs, or no handler is in flight; and an active row has been attempted. */
  ghost predicate Tended(s: State) {
    && (s.polling || s.claims == map[])
    && forall id :: id in s.jobs && s.jobs[id].status.Active? ==> s.jobs[id].attemptsMade > 0
  }

  lemma StepKeepsTended(s: State, step: Step)
    requires Enabled(s, step) && Tended(s) && !step.Crash? && !step.Stop? && !step.Abandon?
    requires step.Succeed? || step.Fail? ==> ClaimsHold(s)
    ensures Tended(Apply(s, step))
  {
  }

  lemma EnqueueKeepsTended(s: State, name: string, payload: string, key: string)
    requires Tended(s)
    ensures Tended(DoEnqueue(s, name, payload, 5, 1000, key))
  {
  }

  lemma ActionKeepsTended(w: World, a: Action)
    requires Smooth(w, a) && Tended(w.queue) && WorldInv(w)
    ensures Tended(Do(w, a).queue)
  {
    match a
    case QueueStep(step) => StepKeepsTended(w.queue, step);
    case Submit(x) => EnqueueKeepsTended(w.queue, VERIFY, x, VerifyKey(w.txs[x].hash.value));
    case Run(t, v) =>
      OwnRowOk(w, t);
      HandlerEffect(w, t, v);
      var x := Subject(w, t);
      if Located(w.hashes, x) { EnqueueKeepsTended(w.queue, RECEIPT, x, ReceiptKey(w.hashes[x].value)); }
    case _ =>
  }

  /** A waiting job is overdue after starting the poll timer, where it is not running, and a tick; and then some job is
      there to be polled. */
  ghost predicate GetsDue(w: World, id: nat) {
    exists ms: nat, pick: nat :: DueBy(w, id, ms, pick)
  }

  ghost predicate DueBy(w: World, id: nat, ms: nat, pick: nat) {
    && Smooth(w, QueueStep(Start))
    && var w1 := Do(w, QueueStep(Start));
       && Smooth(w1, QueueStep(Tick(ms)))
       && var w2 := Do(w1, QueueStep(Tick(ms)));
          Overdue(w2.queue, id) && Smooth(w2, QueueStep(Poll(pick)))
  }

  /** The job's handler can act, or its outcome can be taken. */
  ghost predicate HandlerCanAct(w: World, id: nat) {
    exists t :: Holds(w, t, id) &&
      (Smooth(w, Run(t, Verified)) || Smooth(w, QueueStep(Succeed(t))) || Smooth(w, QueueStep(Fail(t, 0.0))))
  }

  lemma HolderCanAct(w: World, t: nat, id: nat)
    requires Holds(w, t, id)
    ensures HandlerCanAct(w, id)
  {
    if w.phases[t].Returned? {
      assert Smooth(w, QueueStep(Succeed(t)));
    } else if w.phases[t].Throwing? {
      assert Smooth(w, QueueStep(Fail(t, 0.0)));
    } else {
      assert Smooth(w, Run(t, Verified));
    }
  }

  lemma ActiveCanAct(w: World, id: nat)
    requires Counted(w) && IsVerify(w, id) && w.queue.jobs[id].status.Active?
    ensures HandlerCanAct(w, id)
  {
    assert InFlight(w.queue, id);
    var t :| t in w.queue.claims && w.queue.claims[t].id == id;
    assert w.queue.claims[t].doc == w.queue.jobs[id];
    HolderCanAct(w, t, id);
  }

  lemma StartIsHarmless(w: World, id: nat)
    requires Tended(w.queue) && Undisturbed(w.queue) && id in w.queue.jobs
    ensures Smooth(w, QueueStep(Start))
    ensures var w1 := Do(w, QueueStep(Start));
      && w1.queue.polling && w1.queue.now == w.queue.now
      && id in w1.queue.jobs && w1.queue.jobs[id] == w.queue.jobs[id]
  {
    StartLeavesRow(w.queue, id);
  }

  lemma TickMakesDue(w: World, id: nat) returns (ms: nat)
    requires id in w.queue.jobs && Waiting(w.queue.jobs[id])
    ensures Smooth(w, QueueStep(Tick(ms)))
    ensures var s := Do(w, QueueStep(Tick(ms))).queue; Overdue(s, id) && Due(s, id) && s.polling == w.queue.polling
  {
    var gap := w.queue.jobs[id].runAt + 1 - w.queue.now;
    ms := if gap > 0 then gap else 0;
  }

  lemma DueIsPolled(w: World, id: nat) returns (pick: nat)
    requires w.queue.polling && Due(w.queue, id)
    ensures Smooth(w, QueueStep(Poll(pick)))
  {
    PollFindsWork(w.queue, id);
    pick :| EarliestDue(w.queue, pick);
  }

  lemma WaitingGetsDue(w: World, id: nat)
    requires Undisturbed(w.queue) && Tended(w.queue) && id in w.queue.jobs && Waiting(w.queue.jobs[id])
    ensures GetsDue(w, id)
  {
    StartIsHarmless(w, id);
    var w1 := Do(w, QueueStep(Start));
    var ms := TickMakesDue(w1, id);
    var pick := DueIsPolled(Do(w1, QueueStep(Tick(ms))), id);
    assert DueBy(w, id, ms, pick);
  }

  lemma {:induction false} RunKeepsTended(w: World, actions: seq<Action>)
    requires SmoothInv(w) && SmoothRun(w, actions) && Possible(w, actions) && Tended(w.queue)
    ensures Tended(Outcome(w, actions).queue)
    decreases |actions|
  {
    if actions != [] {
      SmoothActionKeeps(w, actions[0]);
      ActionKeepsTended(w, actions[0]);
      RunKeepsTended(Do(w, actions[0]), actions[1..]);
    }
  }

  ghost predicate CanMove(w: World, id: nat) { HandlerCanAct(w, id) || GetsDue(w, id) }

  /** The job is over, as promised if its transaction is there, or it can move. */
  ghost predicate OverOrMoving(w: World, id: nat, x: string) {
    && Verifies(w, id, x)
    && (Terminal(w.queue.jobs[id]) || CanMove(w, id))
    && (x in w.txs && Terminal(w.queue.jobs[id]) ==>
          w.queue.jobs[id].status.Completed? && Settled(w.txs[x]) && w.txs[x].expiresAt.None?)
  }

  lemma OverOrMovingNow(w: World, id: nat, x: string)
    requires SmoothInv(w) && Tended(w.queue) && Verifies(w, id, x)
    ensures OverOrMoving(w, id, x)
  {
    SmoothIsCounted(w);
    var j := w.queue.jobs[id];
    if j.status.Active? {
      ActiveCanAct(w, id);
    } else if Waiting(j) {
      WaitingGetsDue(w, id);
    } else if x in w.txs {
      RowOnCourse(w, id, x);
    }
  }

  /** In every smooth run a verification job takes at most fifty-five actions of its own, and at every moment it is over
      or can move: its handler can act, or, started and ticked, it is overdue and a poll finds work. */
  lemma {:induction false} VerificationEnds(before: seq<Action>, after: seq<Action>, x: string, id: nat)
    requires SmoothRun(Begin, before)
    ensures Possible(Begin, before)
    ensures var w := Outcome(Begin, before);
      Verifies(w, id, x) && SmoothRun(w, after) ==>
        Possible(w, after) && OwnActions(w, after, id) <= 55 && OverOrMoving(Outcome(w, after), id, x)
  {
    SmoothStart(before);
    var w := Outcome(Begin, before);
    BeginInv();
    RunKeepsTended(Begin, before);
    if Verifies(w, id, x) && SmoothRun(w, after) { JobEnds(w, after, x, id); }
  }

  lemma {:induction false} JobEnds(w: World, after: seq<Action>, x: string, id: nat)
    requires SmoothInv(w) && Tended(w.queue) && Verifies(w, id, x) && SmoothRun(w, after)
    ensures Possible(w, after) && OwnActions(w, after, id) <= 55 && OverOrMoving(Outcome(w, after), id, x)
  {
    SmoothIsCounted(w);
    AttemptsInBounds(w, id);
    FullBudget(w, id);
    OwnActionsBounded(w, after, id, 55);
    SmoothRunsKeep(w, after);
    RunKeepsTended(w, after);
    JobStaysForever(w, after, id, x);
    OverOrMovingNow(Outcome(w, after), id, x);
  }
}
