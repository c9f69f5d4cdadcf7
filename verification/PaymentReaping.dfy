/** A smooth run from the empty world to a dead verification job: its transaction is submitted while pending, meets only
    transient verdicts, and is reaped during the last attempt. */
module PaymentReaping {
  import opened Options
  import opened JobQueue
  import opened JobQueueSafety
  import opened PaymentJob
  import opened PaymentSafety
  import opened PaymentProgress

  // ----- reachability by smooth runs -----------------------------------------

  ghost predicate Leads(w: World, actions: seq<Action>, w': World) {
    SmoothRun(w, actions) && Possible(w, actions) && Outcome(w, actions) == w'
  }

  ghost predicate Reaches(w: World, w': World) {
    exists actions :: Leads(w, actions, w')
  }

  lemma {:induction false} Appends(w: World, actions: seq<Action>, a: Action)
    requires SmoothRun(w, actions) && Possible(w, actions) && Smooth(Outcome(w, actions), a)
    ensures Leads(w, actions + [a], Do(Outcome(w, actions), a))
    decreases |actions|
  {
    if actions == [] {
      assert [a][1..] == [] && [] + [a] == [a];
      assert Leads(Do(w, a), [], Do(w, a));
    } else {
      assert (actions + [a])[0] == actions[0] && (actions + [a])[1..] == actions[1..] + [a];
      Appends(Do(w, actions[0]), actions[1..], a);
    }
  }

  lemma ReachesNext(w: World, w1: World, a: Action)
    requires Reaches(w, w1) && Smooth(w1, a)
    ensures Reaches(w, Do(w1, a))
  {
    var actions :| Leads(w, actions, w1);
    Appends(w, actions, a);
  }

  lemma ReachesItself(w: World)
    ensures Reaches(w, w)
  {
    assert Leads(w, [], w);
  }

  /** A smooth run leads to a world in which verification job `id` is dead. */
  ghost predicate MayDie(w: World, id: nat) {
    exists w' :: Reaches(w, w') && DeadJob(w', id)
  }

  predicate DeadJob(w: World, id: nat) {
    id in w.queue.jobs && w.queue.jobs[id].name == VERIFY && w.queue.jobs[id].status.Dead?
  }

  lemma {:induction false} ReachesOn(w: World, w1: World, actions: seq<Action>)
    requires Reaches(w, w1) && SmoothRun(w1, actions) && Possible(w1, actions)
    ensures Reaches(w, Outcome(w1, actions))
    decreases |actions|
  {
    if actions != [] {
      ReachesNext(w, w1, actions[0]);
      ReachesOn(w, Do(w1, actions[0]), actions[1..]);
    }
  }

  lemma MayDieBefore(w: World, w1: World, id: nat)
    requires Reaches(w, w1) && MayDie(w1, id)
    ensures MayDie(w, id)
  {
    var w2 :| Reaches(w1, w2) && DeadJob(w2, id);
    var actions :| Leads(w1, actions, w2);
    ReachesOn(w, w1, actions);
  }

  /** One smooth action earlier. */
  lemma MayDieByStep(w: World, a: Action, id: nat)
    requires Smooth(w, a) && MayDie(Do(w, a), id)
    ensures MayDie(w, id)
  {
    ReachesItself(w);
    ReachesNext(w, w, a);
    MayDieBefore(w, Do(w, a), id);
  }

  // ----- reaped during the last attempt --------------------------------------

  predicate LastSave(w: World, t: nat) {
    && t in w.phases && t in w.queue.claims && Saving(w.phases[t])
    && ContextOf(w, t).attempt >= ContextOf(w, t).maxAttempts
  }

  /** A handler about to save in its last attempt, its transaction pending and past its expiry: the reaper takes the
      row, the save throws, and the job is dead. */
  lemma ReapedMidRunKillsJob(w: World, t: nat, v: Verdict, jitter: real)
    requires ClaimsHold(w.queue) && PhasesClaimed(w) && LastSave(w, t) && 0.0 <= jitter < 1.0
      && Can(w, Reap(Subject(w, t)))
    ensures var w1 := Do(w, Reap(Subject(w, t)));
      && Smooth(w, Reap(Subject(w, t))) && Smooth(w1, Run(t, v))
      && Smooth(Do(w1, Run(t, v)), QueueStep(Fail(t, jitter)))
      && DeadJob(Do(Do(w1, Run(t, v)), QueueStep(Fail(t, jitter))), w.queue.claims[t].id)
    ensures MayDie(w, w.queue.claims[t].id)
  {
    var id, x := w.queue.claims[t].id, Subject(w, t);
    var w1 := Do(w, Reap(x));
    var w2 := Do(w1, Run(t, v));
    ThrowingKills(w2, t, jitter);
    var w3 := Do(w2, QueueStep(Fail(t, jitter)));
    ReachesItself(w3);
    assert MayDie(w3, id);
    MayDieByStep(w2, QueueStep(Fail(t, jitter)), id);
    MayDieByStep(w1, Run(t, v), id);
    MayDieByStep(w, Reap(x), id);
  }

  lemma ThrowingKills(w: World, t: nat, jitter: real)
    requires ClaimsHold(w.queue) && PhasesClaimed(w) && t in w.phases && w.phases[t].Throwing? && 0.0 <= jitter < 1.0
    requires ContextOf(w, t).attempt >= ContextOf(w, t).maxAttempts
    ensures Smooth(w, QueueStep(Fail(t, jitter)))
    ensures DeadJob(Do(w, QueueStep(Fail(t, jitter))), w.queue.claims[t].id)
  {
  }

  // ----- a run that gets there -----------------------------------------------

  /** The transaction of the one job is pending and has an expiry. */
  predicate Exposed(w: World, x: string, expiry: int) {
    && w.queue.polling && w.queue.jobs.Keys == {0}
    && w.queue.jobs[0].name == VERIFY && w.queue.jobs[0].payload == x && w.queue.jobs[0].maxAttempts == 5
    && x in w.txs && w.txs[x].status.Pending? && w.txs[x].expiresAt == Some(expiry)
  }

  /** It waits for its next run after `n` attempts. */
  predicate Waits(w: World, x: string, expiry: int, n: nat) {
    && Exposed(w, x, expiry) && w.queue.claims == map[] && w.phases == map[]
    && Waiting(w.queue.jobs[0]) && w.queue.jobs[0].attemptsMade == n
  }

  /** Its n-th run, of ticket `t`, is at phase `p`. */
  predicate Runs(w: World, x: string, expiry: int, n: nat, t: nat, p: Phase) {
    && Exposed(w, x, expiry) && w.queue.claims == map[t := Claim(0, w.queue.jobs[0])] && w.phases == map[t := p]
    && w.queue.jobs[0].status.Active? && w.queue.jobs[0].attemptsMade == n
  }

  function UntilDue(w: World): nat
    requires 0 in w.queue.jobs
  {
    if w.queue.jobs[0].runAt > w.queue.now then w.queue.jobs[0].runAt - w.queue.now else 0
  }

  lemma TickToDue(w: World, x: string, expiry: int, n: nat)
    requires Waits(w, x, expiry, n)
    ensures var w' := Do(w, QueueStep(Tick(UntilDue(w)))); Waits(w', x, expiry, n) && EarliestDue(w'.queue, 0)
  {
  }

  lemma PollStarts(w: World, x: string, expiry: int, n: nat)
    requires Waits(w, x, expiry, n) && EarliestDue(w.queue, 0)
    ensures Runs(Do(w, QueueStep(Poll(0))), x, expiry, n + 1, w.queue.nextTicket, Reading)
  {
  }

  lemma ReadFinds(w: World, x: string, expiry: int, n: nat, t: nat)
    requires Runs(w, x, expiry, n, t, Reading)
    ensures Can(w, Run(t, Rejected(true))) && Runs(Do(w, Run(t, Rejected(true))), x, expiry, n, t, Verifying)
  {
  }

  lemma VerdictIsTransient(w: World, x: string, expiry: int, n: nat, t: nat)
    requires Runs(w, x, expiry, n, t, Verifying)
    ensures Can(w, Run(t, Rejected(true)))
    ensures Runs(Do(w, Run(t, Rejected(true))), x, expiry, n, t, if n < 5 then SavingRetry else SavingFailed)
  {
  }

  lemma SaveThenThrow(w: World, x: string, expiry: int, n: nat, t: nat)
    requires Runs(w, x, expiry, n, t, SavingRetry)
    ensures Can(w, Run(t, Rejected(true))) && Runs(Do(w, Run(t, Rejected(true))), x, expiry, n, t, Throwing)
  {
  }

  lemma FailWaits(w: World, x: string, expiry: int, n: nat, t: nat)
    requires Runs(w, x, expiry, n, t, Throwing) && n < 5
    ensures Smooth(w, QueueStep(Fail(t, 0.0))) && Waits(Do(w, QueueStep(Fail(t, 0.0))), x, expiry, n)
  {
  }

  function UntilReapable(w: World, expiry: int): nat {
    if expiry > w.queue.now then expiry - w.queue.now else 0
  }

  /** The last attempt, cut short by the reaper. */
  lemma LastRunMayDie(w: World, x: string, expiry: int, t: nat)
    requires Runs(w, x, expiry, 5, t, SavingFailed)
    ensures MayDie(w, 0)
  {
    var tick := QueueStep(Tick(UntilReapable(w, expiry)));
    var w1 := Do(w, tick);
    ReapedMidRunKillsJob(w1, t, Verified, 0.0);
    MayDieByStep(w, tick, 0);
  }

  lemma {:induction false} WaitingMayDie(w: World, x: string, expiry: int, n: nat)
    requires Waits(w, x, expiry, n) && n < 5
    ensures MayDie(w, 0)
    decreases 5 - n, 0
  {
    var tick, poll := QueueStep(Tick(UntilDue(w))), QueueStep(Poll(0));
    TickToDue(w, x, expiry, n);
    var w1 := Do(w, tick);
    PollStarts(w1, x, expiry, n);
    RunningMayDie(Do(w1, poll), x, expiry, n + 1, w1.queue.nextTicket);
    MayDieByStep(w1, poll, 0);
    MayDieByStep(w, tick, 0);
  }

  lemma {:induction false} RunningMayDie(w: World, x: string, expiry: int, n: nat, t: nat)
    requires Runs(w, x, expiry, n, t, Reading) && 1 <= n <= 5
    ensures MayDie(w, 0)
    decreases 5 - n, 2
  {
    var run := Run(t, Rejected(true));
    ReadFinds(w, x, expiry, n, t);
    var w1 := Do(w, run);
    VerdictIsTransient(w1, x, expiry, n, t);
    var w2 := Do(w1, run);
    if n == 5 {
      LastRunMayDie(w2, x, expiry, t);
    } else {
      SavingMayDie(w2, x, expiry, n, t);
    }
    MayDieByStep(w1, run, 0);
    MayDieByStep(w, run, 0);
  }

  lemma {:induction false} SavingMayDie(w: World, x: string, expiry: int, n: nat, t: nat)
    requires Runs(w, x, expiry, n, t, SavingRetry) && 1 <= n < 5
    ensures MayDie(w, 0)
    decreases 5 - n, 1
  {
    var run, fail := Run(t, Rejected(true)), QueueStep(Fail(t, 0.0));
    SaveThenThrow(w, x, expiry, n, t);
    var w1 := Do(w, run);
    FailWaits(w1, x, expiry, n, t);
    WaitingMayDie(Do(w1, fail), x, expiry, n);
    MayDieByStep(w1, fail, 0);
    MayDieByStep(w, run, 0);
  }

  // ----- theorem -------------------------------------------------------------

  /** A checkout created pending, with half an hour to expire. */
  const CHECKOUT := Tx(Some("h"), false, false, Pending, Some(30 * 60 * 1000), 0)

  lemma FirstSteps()
    ensures Smooth(Begin, Admit("x", CHECKOUT))
    ensures var w1 := Do(Begin, Admit("x", CHECKOUT)); Smooth(w1, Submit("x"))
    ensures var w2 := Do(Do(Begin, Admit("x", CHECKOUT)), Submit("x"));
      Smooth(w2, QueueStep(Start)) && Waits(Do(w2, QueueStep(Start)), "x", 30 * 60 * 1000, 0)
  {
  }

  lemma MayDieByThree(w: World, a: Action, b: Action, c: Action, id: nat)
    requires Smooth(w, a) && Smooth(Do(w, a), b) && Smooth(Do(Do(w, a), b), c) && MayDie(Do(Do(Do(w, a), b), c), id)
    ensures MayDie(w, id)
  {
    MayDieByStep(Do(Do(w, a), b), c, id);
    MayDieByStep(Do(w, a), b, id);
    MayDieByStep(w, a, id);
  }

  /** A smooth run from the empty world leads to a dead verification job: submitted while pending, a transaction that
      meets transient verdicts until its expiry can be reaped during the last attempt. */
  lemma DeadVerificationIsReachable()
    ensures exists w, id :: Reaches(Begin, w) && DeadJob(w, id)
  {
    FirstSteps();
    WaitingMayDie(Do(Do(Do(Begin, Admit("x", CHECKOUT)), Submit("x")), QueueStep(Start)), "x", 30 * 60 * 1000, 0);
    MayDieByThree(Begin, Admit("x", CHECKOUT), Submit("x"), QueueStep(Start), 0);
    var w :| Reaches(Begin, w) && DeadJob(w, 0);
  }
}
