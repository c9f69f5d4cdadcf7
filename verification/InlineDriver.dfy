/** The inline driver's retry loop, and why a crash-free queue calls a handler exactly as it does. */
module InlineDriver {
  import opened Backoff
  import opened JobQueue
  import opened JobQueueSafety

  /** Whether the handler succeeds at its n-th attempt. */
  type Outcomes = nat -> bool

  /** The contexts the inline driver calls a handler with, from a given attempt on. */
  function InlineCalls(outcome: Outcomes, attempt: nat, maxAttempts: int): seq<Context>
    decreases maxAttempts - attempt
  {
    if attempt > maxAttempts then []
    else
      [Context(attempt, maxAttempts)]
        + if outcome(attempt) then [] else InlineCalls(outcome, attempt + 1, maxAttempts)
  }

  predicate FailsThrough(outcome: Outcomes, n: nat) {
    forall a: nat :: 1 <= a <= n ==> !outcome(a)
  }

  /** After `n` failures the driver has made calls 1 to n and goes on from there. */
  lemma {:induction false} CallsAfterFailures(outcome: Outcomes, n: nat, maxAttempts: int)
    requires FailsThrough(outcome, n) && n <= maxAttempts
    ensures InlineCalls(outcome, 1, maxAttempts) == Contexts(n, maxAttempts) + InlineCalls(outcome, n + 1, maxAttempts)
  {
    if n > 0 {
      CallsAfterFailures(outcome, n - 1, maxAttempts);
      Reassociate(Contexts(n - 1, maxAttempts), [Context(n, maxAttempts)], InlineCalls(outcome, n + 1, maxAttempts));
    }
  }

  lemma Reassociate(a: seq<Context>, b: seq<Context>, c: seq<Context>)
    ensures a + (b + c) == (a + b) + c
  {
  }

  /** `executeInline`; a delay between attempts changes nothing the loop looks at. */
  method ExecuteInline(outcome: Outcomes, maxAttempts: int) returns (calls: seq<Context>, succeeded: bool)
    ensures calls == InlineCalls(outcome, 1, maxAttempts)
    ensures succeeded <==> exists a: nat :: 1 <= a <= maxAttempts && outcome(a)
  {
    calls, succeeded := [], false;
    var attempt: nat := 0;
    while attempt < maxAttempts
      invariant attempt == 0 || attempt < maxAttempts
      invariant FailsThrough(outcome, attempt)
      invariant calls == Contexts(attempt, maxAttempts)
      decreases maxAttempts - attempt
    {
      attempt := attempt + 1;
      calls := calls + [Context(attempt, maxAttempts)];
      if outcome(attempt) {
        CallsAfterFailures(outcome, attempt - 1, maxAttempts);
        succeeded := true;
        return;
      }
      if attempt >= maxAttempts {
        CallsAfterFailures(outcome, attempt, maxAttempts);
        return;
      }
    }
  }

  // ----- crash-free runs of the queue ----------------------------------------

  /** The world's verdicts: does the handler of this row succeed at this attempt? */
  type Oracle = (nat, nat) -> bool

  function OutcomesOf(oracle: Oracle, id: nat): Outcomes { (a: nat) => oracle(id, a) }

  predicate Follows(s: State, step: Step, oracle: Oracle) {
    match step
    case Succeed(t) => t in s.claims && oracle(s.claims[t].id, s.claims[t].doc.attemptsMade)
    case Fail(t, _) => t in s.claims && !oracle(s.claims[t].id, s.claims[t].doc.attemptsMade)
    case Abandon(_) => false
    case Crash => false
    case _ => true
  }

  /** A legal run without crashes in which every handler does what the oracle says. */
  predicate CrashFree(s: State, steps: seq<Step>, oracle: Oracle)
    decreases |steps|
  {
    steps != [] ==>
      && Enabled(s, steps[0]) && OneWorker(s, steps[0]) && Follows(s, steps[0], oracle)
      && CrashFree(Apply(s, steps[0]), steps[1..], oracle)
  }

  lemma {:induction false} CrashFreeIsLegal(s: State, steps: seq<Step>, oracle: Oracle)
    requires CrashFree(s, steps, oracle)
    ensures Legal(s, steps)
    decreases |steps|
  {
    if steps != [] {
      CrashFreeIsLegal(Apply(s, steps[0]), steps[1..], oracle);
    }
  }

  /** Where a row is in its attempts, as the oracle's verdicts so far say. */
  predicate OnTrack(j: Job, outcome: Outcomes) {
    var n := j.attemptsMade;
    && n <= Allowance(j)
    && match j.status
       case Queued => n == 0
       case Active => n > 0 && FailsThrough(outcome, n - 1)
       case Retrying => FailsThrough(outcome, n) && 0 < n < j.maxAttempts
       case Completed => n > 0 && FailsThrough(outcome, n - 1) && outcome(n)
       case Dead => n > 0 && FailsThrough(outcome, n) && n >= j.maxAttempts
  }

  /** The n-th attempt starts only after all the backoff before it, without its jitter. */
  predicate OnTime(j: Job, now: int) {
    match j.status
    case Queued => j.createdAt <= j.runAt
    case Active => j.attemptsMade > 0 && now >= j.createdAt + j.backoffMs * (Pow2(j.attemptsMade - 1) - 1)
    case Retrying => j.attemptsMade > 0 && j.runAt >= j.createdAt + j.backoffMs * (Pow2(j.attemptsMade) - 1)
    case _ => j.attemptsMade > 0 && now >= j.createdAt + j.backoffMs * (Pow2(j.attemptsMade - 1) - 1)
  }

  ghost predicate RowsProgress(s: State, oracle: Oracle) {
    && (forall id :: id in s.jobs ==> OnTrack(s.jobs[id], OutcomesOf(oracle, id)))
    && (forall id :: id in s.jobs ==> OnTime(s.jobs[id], s.now))
  }

  ghost predicate RowsOnTrack(s: State, oracle: Oracle) {
    RowsProgress(s, oracle) && Undisturbed(s)
  }

  lemma ClaimedOnTrack(j: Job, now: int, outcome: Outcomes)
    requires OnTrack(j, outcome) && OnTime(j, now) && Waiting(j) && j.runAt <= now
    ensures OnTrack(Claimed(j, now), outcome) && OnTime(Claimed(j, now), now)
  {
  }

  lemma FailedOnTrack(j: Job, now: int, jitter: real, outcome: Outcomes)
    requires OnTrack(j, outcome) && OnTime(j, now) && j.status.Active? && !outcome(j.attemptsMade)
      && 0.0 <= jitter < 1.0
    ensures OnTrack(Failed(j, now, jitter)(j), outcome) && OnTime(Failed(j, now, jitter)(j), now)
  {
  }

  lemma SettleKeepsProgress(s: State, t: nat, f: Job -> Job, oracle: Oracle)
    requires ClaimsHold(s) && RowsProgress(s, oracle) && t in s.claims
    requires var c := s.claims[t]; OnTrack(f(c.doc), OutcomesOf(oracle, c.id)) && OnTime(f(c.doc), s.now)
    ensures RowsProgress(Settle(s, t, f), oracle)
  {
  }

  /** With no handler in flight a crash-free queue has no active row to requeue. */
  lemma StartKeepsProgress(s: State, oracle: Oracle)
    requires RowsOnTrack(s, oracle) && (s.polling || s.claims == map[])
    ensures RowsProgress(DoStart(s), oracle)
  {
  }

  lemma PollKeepsProgress(s: State, pick: nat, oracle: Oracle)
    requires RowsProgress(s, oracle) && EarliestDue(s, pick)
    ensures RowsProgress(DoPoll(s, pick), oracle)
  {
    ClaimedOnTrack(s.jobs[pick], s.now, OutcomesOf(oracle, pick));
  }

  lemma OtherKeepsProgress(s: State, step: Step, oracle: Oracle)
    requires RowsProgress(s, oracle) && (step.Enqueue? || step.Stop? || step.Tick?)
    ensures RowsProgress(Apply(s, step), oracle)
  {
  }

  lemma StepKeepsTrack(s: State, step: Step, oracle: Oracle)
    requires Inv(s) && RowsOnTrack(s, oracle) && Enabled(s, step) && OneWorker(s, step) && Follows(s, step, oracle)
    ensures RowsOnTrack(Apply(s, step), oracle)
  {
    StepKeepsUndisturbed(s, step);
    StepKeepsProgress(s, step, oracle);
  }

  lemma FailKeepsProgress(s: State, t: nat, jitter: real, oracle: Oracle)
    requires ClaimsHold(s) && RowsProgress(s, oracle) && t in s.claims && 0.0 <= jitter < 1.0
    requires !oracle(s.claims[t].id, s.claims[t].doc.attemptsMade)
    ensures RowsProgress(Settle(s, t, Failed(s.claims[t].doc, s.now, jitter)), oracle)
  {
    var c := s.claims[t];
    assert OnTrack(s.jobs[c.id], OutcomesOf(oracle, c.id));
    FailedOnTrack(c.doc, s.now, jitter, OutcomesOf(oracle, c.id));
    SettleKeepsProgress(s, t, Failed(c.doc, s.now, jitter), oracle);
  }

  lemma SucceedKeepsProgress(s: State, t: nat, oracle: Oracle)
    requires ClaimsHold(s) && RowsProgress(s, oracle) && t in s.claims
    requires oracle(s.claims[t].id, s.claims[t].doc.attemptsMade)
    ensures RowsProgress(Settle(s, t, Finished), oracle)
  {
    var c := s.claims[t];
    assert OnTrack(s.jobs[c.id], OutcomesOf(oracle, c.id));
    SettleKeepsProgress(s, t, Finished, oracle);
  }

  lemma StepKeepsProgress(s: State, step: Step, oracle: Oracle)
    requires Inv(s) && RowsOnTrack(s, oracle) && Enabled(s, step) && OneWorker(s, step) && Follows(s, step, oracle)
    ensures RowsProgress(Apply(s, step), oracle)
  {
    match step
    case Poll(pick) => PollKeepsProgress(s, pick, oracle);
    case Succeed(t) => SucceedKeepsProgress(s, t, oracle);
    case Fail(t, jitter) => FailKeepsProgress(s, t, jitter, oracle);
    case Start => StartKeepsProgress(s, oracle);
    case _ => OtherKeepsProgress(s, step, oracle);
  }

  lemma {:induction false} CrashFreeRun(s: State, steps: seq<Step>, oracle: Oracle)
    requires Inv(s) && RowsOnTrack(s, oracle) && CrashFree(s, steps, oracle)
    ensures Legal(s, steps) && Inv(Final(s, steps)) && RowsOnTrack(Final(s, steps), oracle)
    decreases |steps|
  {
    if steps != [] {
      StepKeepsInv(s, steps[0]);
      StepKeepsTrack(s, steps[0], oracle);
      CrashFreeRun(Apply(s, steps[0]), steps[1..], oracle);
    }
  }

  // ----- theorems ------------------------------------------------------------

  /** In every crash-free run, with any other jobs going on around it, a row's handler has been called with a prefix
      of the contexts the inline driver would use; once the row is settled, with exactly those, and it is completed
      exactly when the inline driver's last call succeeded. */
  lemma {:induction false} QueueRefinesInline(steps: seq<Step>, oracle: Oracle, id: nat)
    requires CrashFree(Init, steps, oracle)
    ensures Legal(Init, steps)
    ensures id in Final(Init, steps).jobs && Final(Init, steps).jobs[id].maxAttempts >= 1 ==>
      var s := Final(Init, steps);
      var j, inline := s.jobs[id], InlineCalls(OutcomesOf(oracle, id), 1, s.jobs[id].maxAttempts);
      && CallsOf(s, id) <= inline
      && (Terminal(j) ==> CallsOf(s, id) == inline)
      && (Terminal(j) ==> (j.status.Completed? <==> oracle(id, |inline|)))
  {
    CrashFreeRun(Init, steps, oracle);
    var s := Final(Init, steps);
    if id in s.jobs && s.jobs[id].maxAttempts >= 1 {
      assert RowOk(s.jobs[id], RecoveriesOf(s, id), CallsOf(s, id));
      RowMatchesInline(s.jobs[id], OutcomesOf(oracle, id));
    }
  }

  lemma RowMatchesInline(j: Job, outcome: Outcomes)
    requires OnTrack(j, outcome) && j.maxAttempts >= 1
    ensures var calls, inline := Contexts(j.attemptsMade, j.maxAttempts), InlineCalls(outcome, 1, j.maxAttempts);
      && calls <= inline
      && (Terminal(j) ==> calls == inline && (j.status.Completed? <==> outcome(|inline|)))
  {
    var n := j.attemptsMade;
    if n > 0 {
      CallsAfterFailures(outcome, n - 1, j.maxAttempts);
      Reassociate(Contexts(n - 1, j.maxAttempts), [Context(n, j.maxAttempts)],
                  if outcome(n) then [] else InlineCalls(outcome, n + 1, j.maxAttempts));
    }
  }

  /** The drivers part on a negative attempt count alone: the queue still calls the handler once, the inline driver
      never. */
  lemma {:induction false} DriversAgreeExactlyWhen(steps: seq<Step>, oracle: Oracle, id: nat)
    requires CrashFree(Init, steps, oracle)
    ensures Legal(Init, steps)
    ensures id in Final(Init, steps).jobs && Terminal(Final(Init, steps).jobs[id]) ==>
      var s := Final(Init, steps);
      (CallsOf(s, id) == InlineCalls(OutcomesOf(oracle, id), 1, s.jobs[id].maxAttempts) <==>
        s.jobs[id].maxAttempts >= 1)
  {
    QueueRefinesInline(steps, oracle, id);
    CrashFreeRun(Init, steps, oracle);
    var s := Final(Init, steps);
    if id in s.jobs && Terminal(s.jobs[id]) {
      assert RowOk(s.jobs[id], RecoveriesOf(s, id), CallsOf(s, id));
      assert OnTrack(s.jobs[id], OutcomesOf(oracle, id));
    }
  }

  /** The last attempt so far began no sooner than all the backoff before it allows. */
  predicate BackoffPassed(j: Job, now: int) {
    j.attemptsMade > 0 && !Waiting(j) ==> now >= j.createdAt + j.backoffMs * (Pow2(j.attemptsMade - 1) - 1)
  }

  /** A job whose handler always throws never completes, and once dead it was called exactly `maxAttempts` times
      (once if that is below one), the n-th time no sooner than `backoffMs * (2^(n-1) - 1)` after it was enqueued. */
  lemma {:induction false} AlwaysFailingJobDies(steps: seq<Step>, oracle: Oracle, id: nat)
    requires CrashFree(Init, steps, oracle) && forall a: nat :: !oracle(id, a)
    ensures Legal(Init, steps)
    ensures id in Final(Init, steps).jobs ==>
      var s := Final(Init, steps);
      var j := s.jobs[id];
      && !j.status.Completed?
      && |CallsOf(s, id)| <= Allowance(j)
      && (j.status.Dead? <==> |CallsOf(s, id)| == Allowance(j) && !j.status.Active?)
      && BackoffPassed(j, s.now)
  {
    CrashFreeRun(Init, steps, oracle);
    var s := Final(Init, steps);
    if id in s.jobs {
      assert RowOk(s.jobs[id], RecoveriesOf(s, id), CallsOf(s, id));
      RowDies(s.jobs[id], OutcomesOf(oracle, id), s.now);
    }
  }

  lemma RowDies(j: Job, outcome: Outcomes, now: int)
    requires OnTrack(j, outcome) && OnTime(j, now) && forall a: nat :: !outcome(a)
    ensures !j.status.Completed? && j.attemptsMade <= Allowance(j)
    ensures j.status.Dead? <==> j.attemptsMade == Allowance(j) && !j.status.Active?
    ensures BackoffPassed(j, now)
  {
  }
}
