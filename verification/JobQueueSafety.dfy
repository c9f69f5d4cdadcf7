/** What every reachable state of the queue satisfies, over all runs with crashes and restarts. */
module JobQueueSafety {
  import opened Options
  import opened JobQueue

  ghost predicate Numbered(s: State) {
    && (forall id :: id in s.jobs ==> id < s.nextId)
    && (forall t :: t in s.claims ==> t < s.nextTicket)
  }

  ghost predicate OneRowPerKey(s: State) {
    forall a, b :: a in s.jobs && b in s.jobs && s.jobs[a].key == s.jobs[b].key ==> a == b
  }

  /** A handler in flight holds an active row that nobody has changed since it was claimed. */
  ghost predicate ClaimsHold(s: State) {
    forall t :: t in s.claims ==>
      var c := s.claims[t];
      c.id in s.jobs && s.jobs[c.id] == c.doc && c.doc.status.Active?
  }

  ghost predicate ClaimsDistinct(s: State) {
    forall t, u :: t in s.claims && u in s.claims && s.claims[t].id == s.claims[u].id ==> t == u
  }

  /** The attempts a row allows: `maxAttempts`, but the first claim asks for none. */
  function Allowance(j: Job): int {
    if j.maxAttempts > 1 then j.maxAttempts else 1
  }

  predicate WithinAttempts(j: Job, recoveries: nat) {
    j.attemptsMade <= Allowance(j) + recoveries - (if Waiting(j) then 1 else 0)
  }

  function Contexts(n: nat, maxAttempts: int): (r: seq<Context>)
    ensures |r| == n
  {
    if n == 0 then [] else Contexts(n - 1, maxAttempts) + [Context(n, maxAttempts)]
  }

  /** A row was never attempted beyond its allowance and its recoveries, its handler was called once per attempt
      with attempt numbers 1, 2, 3 and so on, and it is locked exactly while it is active. */
  predicate RowOk(j: Job, recoveries: nat, calls: seq<Context>) {
    && WithinAttempts(j, recoveries)
    && calls == Contexts(j.attemptsMade, j.maxAttempts)
    && (j.lockedAt.Some? <==> j.status.Active?)
  }

  ghost predicate RowsOk(s: State) {
    forall id :: id in s.jobs ==> RowOk(s.jobs[id], RecoveriesOf(s, id), CallsOf(s, id))
  }

  ghost predicate Inv(s: State) {
    Numbered(s) && OneRowPerKey(s) && ClaimsHold(s) && ClaimsDistinct(s) && RowsOk(s)
  }

  lemma InitInv()
    ensures Inv(Init)
  {
  }

  /** Everything but the rows' own bookkeeping. */
  ghost predicate WorkOk(s: State) {
    Numbered(s) && OneRowPerKey(s) && ClaimsHold(s) && ClaimsDistinct(s)
  }

  lemma EnqueueKeeps(s: State, name: string, payload: string, attempts: int, backoffMs: nat, key: string)
    ensures WorkOk(s) ==> WorkOk(DoEnqueue(s, name, payload, attempts, backoffMs, key))
    ensures RowsOk(s) ==> RowsOk(DoEnqueue(s, name, payload, attempts, backoffMs, key))
  {
  }

  lemma PollKeepsRows(s: State, pick: nat)
    requires RowsOk(s) && pick in s.jobs && Waiting(s.jobs[pick])
    ensures RowsOk(DoPoll(s, pick))
  {
  }

  lemma PollKeepsWork(s: State, pick: nat)
    requires WorkOk(s) && pick in s.jobs && Waiting(s.jobs[pick])
    ensures WorkOk(DoPoll(s, pick))
  {
  }

  /** A handler's verdict changes only its own row's status, due time and lock. */
  predicate Settles(f: Job -> Job, j: Job) {
    && f(j) == j.(status := f(j).status, runAt := f(j).runAt, lockedAt := None)
    && (Terminal(f(j)) || (f(j).status.Retrying? && j.attemptsMade < j.maxAttempts))
  }

  lemma SettleKeepsRows(s: State, t: nat, f: Job -> Job)
    requires RowsOk(s) && ClaimsHold(s) && t in s.claims && Settles(f, s.claims[t].doc)
    ensures RowsOk(Settle(s, t, f))
  {
  }

  lemma SettleKeepsWork(s: State, t: nat, f: Job -> Job)
    requires WorkOk(s) && t in s.claims && Settles(f, s.claims[t].doc)
    ensures WorkOk(Settle(s, t, f))
  {
  }

  lemma StartKeeps(s: State)
    requires s.polling || s.claims == map[]
    ensures WorkOk(s) ==> WorkOk(DoStart(s))
    ensures RowsOk(s) ==> RowsOk(DoStart(s))
  {
  }

  /** Steps that touch no row. */
  lemma QuietStepKeeps(s: State, step: Step)
    requires Inv(s) && Enabled(s, step) && (step.Abandon? || step.Crash? || step.Stop? || step.Tick?)
    ensures Inv(Apply(s, step))
  {
    SameRows(s, Apply(s, step));
  }

  lemma SameRows(s: State, s': State)
    requires Inv(s) && s'.jobs == s.jobs && s'.calls == s.calls && s'.recoveries == s.recoveries
    requires s'.nextId == s.nextId && s'.nextTicket == s.nextTicket
    requires forall t :: t in s'.claims ==> t in s.claims && s'.claims[t] == s.claims[t]
    ensures Inv(s')
  {
  }

  /** Every step of one worker process keeps all of it. */
  lemma StepKeepsInv(s: State, step: Step)
    requires Inv(s) && Enabled(s, step) && OneWorker(s, step)
    ensures Inv(Apply(s, step))
  {
    match step
    case Enqueue(name, payload, attempts, backoffMs, key) => EnqueueKeeps(s, name, payload, attempts, backoffMs, key);
    case Poll(pick) => PollKeepsRows(s, pick); PollKeepsWork(s, pick);
    case Succeed(t) => SettleKeepsRows(s, t, Finished); SettleKeepsWork(s, t, Finished);
    case Fail(t, jitter) =>
      var f := Failed(s.claims[t].doc, s.now, jitter);
      SettleKeepsRows(s, t, f); SettleKeepsWork(s, t, f);
    case Start => StartKeeps(s);
    case _ => QuietStepKeeps(s, step);
  }

  // ----- runs in which no handler is lost ------------------------------------

  ghost predicate InFlight(s: State, id: nat) {
    exists t :: t in s.claims && s.claims[t].id == id
  }

  /** Every active row has its handler in flight, and no row was ever recovered. */
  ghost predicate Undisturbed(s: State) {
    && (forall id :: id in s.jobs && s.jobs[id].status.Active? ==> InFlight(s, id))
    && (forall id :: id in s.jobs ==> RecoveriesOf(s, id) == 0)
  }

  lemma PollKeepsUndisturbed(s: State, pick: nat)
    requires Numbered(s) && Undisturbed(s) && pick in s.jobs
    ensures Undisturbed(DoPoll(s, pick))
  {
    var s' := DoPoll(s, pick);
    forall id | id in s'.jobs && s'.jobs[id].status.Active? ensures InFlight(s', id) {
      if id == pick {
        assert s'.claims[s.nextTicket].id == id;
      } else {
        assert InFlight(s, id);
        var t :| t in s.claims && s.claims[t].id == id;
        assert s'.claims[t].id == id;
      }
    }
  }

  lemma SettleKeepsUndisturbed(s: State, t: nat, f: Job -> Job)
    requires Undisturbed(s) && t in s.claims && !f(s.claims[t].doc).status.Active? && ClaimsHold(s)
    ensures Undisturbed(Settle(s, t, f))
  {
    var s' := Settle(s, t, f);
    forall id | id in s'.jobs && s'.jobs[id].status.Active? ensures InFlight(s', id) {
      assert InFlight(s, id);
      var u :| u in s.claims && s.claims[u].id == id;
      assert u in s'.claims;
    }
  }

  /** Only a crash, or a handler whose outcome could not be written, disturbs the queue. */
  lemma StepKeepsUndisturbed(s: State, step: Step)
    requires Inv(s) && Undisturbed(s) && Enabled(s, step) && OneWorker(s, step) && !step.Crash? && !step.Abandon?
    ensures Undisturbed(Apply(s, step))
  {
    match step
    case Poll(pick) => PollKeepsUndisturbed(s, pick);
    case Succeed(t) => SettleKeepsUndisturbed(s, t, Finished);
    case Fail(t, jitter) => SettleKeepsUndisturbed(s, t, Failed(s.claims[t].doc, s.now, jitter));
    case _ => OtherKeepsUndisturbed(s, step);
  }

  lemma OtherKeepsUndisturbed(s: State, step: Step)
    requires Numbered(s) && Undisturbed(s) && OneWorker(s, step)
    requires step.Enqueue? || step.Start? || step.Stop? || step.Tick?
    ensures Undisturbed(Apply(s, step))
  {
  }

  // ----- whole runs ----------------------------------------------------------

  lemma {:induction false} RunKeepsInv(s: State, steps: seq<Step>)
    requires Inv(s) && Legal(s, steps)
    ensures Inv(Final(s, steps))
    decreases |steps|
  {
    if steps != [] {
      StepKeepsInv(s, steps[0]);
      RunKeepsInv(Apply(s, steps[0]), steps[1..]);
    }
  }

  /** In every reachable state: handlers in flight hold distinct active rows, no two rows share an idempotency key,
      and every row was attempted at most its allowance plus the times it was recovered, its handler having been
      called with attempts 1, 2, 3 and so on. */
  lemma {:induction false} ReachableStates(steps: seq<Step>)
    requires Legal(Init, steps)
    ensures var s := Final(Init, steps);
      && (forall t, u :: t in s.claims && u in s.claims && t != u ==> s.claims[t].id != s.claims[u].id)
      && (forall t :: t in s.claims ==> s.claims[t].id in s.jobs && s.jobs[s.claims[t].id].status.Active?)
      && (forall a, b :: a in s.jobs && b in s.jobs && a != b ==> s.jobs[a].key != s.jobs[b].key)
      && (forall id :: id in s.jobs ==>
            && s.jobs[id].attemptsMade <= Allowance(s.jobs[id]) + RecoveriesOf(s, id)
            && CallsOf(s, id) == Contexts(s.jobs[id].attemptsMade, s.jobs[id].maxAttempts))
  {
    InitInv();
    RunKeepsInv(Init, steps);
    var s := Final(Init, steps);
    forall id | id in s.jobs
      ensures s.jobs[id].attemptsMade <= Allowance(s.jobs[id]) + RecoveriesOf(s, id)
      ensures CallsOf(s, id) == Contexts(s.jobs[id].attemptsMade, s.jobs[id].maxAttempts)
    {
      assert RowOk(s.jobs[id], RecoveriesOf(s, id), CallsOf(s, id));
    }
  }

  lemma StepKeepsTerminal(s: State, step: Step, id: nat)
    requires Inv(s) && Enabled(s, step) && id in s.jobs && Terminal(s.jobs[id])
    ensures id in Apply(s, step).jobs && Apply(s, step).jobs[id] == s.jobs[id]
  {
  }

  /** `completed` and `dead` are absorbing: once there, a row never changes again. */
  lemma {:induction false} TerminalIsForever(s: State, steps: seq<Step>, id: nat)
    requires Inv(s) && Legal(s, steps) && id in s.jobs && Terminal(s.jobs[id])
    ensures id in Final(s, steps).jobs && Final(s, steps).jobs[id] == s.jobs[id]
    decreases |steps|
  {
    if steps != [] {
      StepKeepsInv(s, steps[0]);
      StepKeepsTerminal(s, steps[0], id);
      TerminalIsForever(Apply(s, steps[0]), steps[1..], id);
    }
  }

  /** `startJobs` on a stopped queue keeps "handlers in flight hold active rows" if and only if none is in flight. */
  lemma StartIsSafeExactlyWhen(s: State)
    requires Inv(s) && !s.polling
    ensures Inv(DoStart(s)) <==> s.claims == map[]
  {
    if s.claims == map[] {
      StartKeeps(s);
    } else {
      var t :| t in s.claims;
      assert DoStart(s).jobs[s.claims[t].id].status.Retrying?;
    }
  }

  /** Restarted while a handler is in flight, the queue hands its row to a second handler at the next poll. */
  lemma StartInFlightRunsTwice(s: State, t: nat)
    requires Inv(s) && !s.polling && t in s.claims && EarliestDue(DoStart(s), s.claims[t].id)
    ensures var id, s' := s.claims[t].id, DoPoll(DoStart(s), s.claims[t].id);
      exists u :: u != t && t in s'.claims && u in s'.claims && s'.claims[t].id == s'.claims[u].id == id
  {
    var s' := DoPoll(DoStart(s), s.claims[t].id);
    assert s'.claims[s.nextTicket].id == s'.claims[t].id;
  }
}
