/** What happens to a row, step by step: how rows come to be, when they die or complete, and that a restart brings back
    every job that a crash left active. */
module JobQueueRecovery {
  import opened Options
  import opened Backoff
  import opened JobQueue
  import opened JobQueueSafety
  import opened JobQueueFairness

  // ----- one step, one row ---------------------------------------------------

  predicate Holds(s: State, t: nat, id: nat) { t in s.claims && s.claims[t].id == id }

  /** The handler of row `id` returned, or threw. */
  predicate SucceedsOn(s: State, step: Step, id: nat) { step.Succeed? && Holds(s, step.ticket, id) }

  predicate FailsOn(s: State, step: Step, id: nat) { step.Fail? && Holds(s, step.ticket, id) }

  /** A start that finds the row active. */
  predicate Recovers(s: State, step: Step, id: nat) {
    step.Start? && !s.polling && id in s.jobs && s.jobs[id].status.Active?
  }

  /** Due again after `backoffMs * 2^(attempts - 1)` and at most a fifth of it more. */
  predicate WaitsBackoff(j: Job, j': Job, now: int) {
    var wait, least := j'.runAt - now, j.backoffMs * Pow2(if j.attemptsMade >= 1 then j.attemptsMade - 1 else 0);
    && j' == j.(status := Retrying, runAt := j'.runAt, lockedAt := None)
    && least <= wait && 5 * wait <= 6 * least
  }

  predicate AfterFailure(j: Job, j': Job, now: int) {
    if j.attemptsMade >= j.maxAttempts then j' == j.(status := Dead, lockedAt := None)
    else WaitsBackoff(j, j', now)
  }

  lemma FailureWaits(j: Job, now: int, jitter: real)
    requires 0.0 <= jitter < 1.0
    ensures AfterFailure(j, Failed(j, now, jitter)(j), now)
  {
    DelayBounds(j.backoffMs, j.attemptsMade, jitter);
  }

  /** Everything a step can do to a row that is there: a claim, the outcome of its own claim, or a recovery. */
  lemma RowChangesExactly(s: State, step: Step, id: nat)
    requires Numbered(s) && ClaimsHold(s) && Enabled(s, step) && id in s.jobs
    ensures id in Apply(s, step).jobs
    ensures var j, j' := s.jobs[id], Apply(s, step).jobs[id];
      && (step == Poll(id) ==>
            j' == j.(status := Active, attemptsMade := j.attemptsMade + 1, lockedAt := Some(s.now)))
      && (SucceedsOn(s, step, id) ==> j' == j.(status := Completed, lockedAt := None))
      && (FailsOn(s, step, id) ==> AfterFailure(j, j', s.now))
      && (Recovers(s, step, id) ==> j' == j.(status := Retrying, runAt := s.now, lockedAt := None))
      && (step != Poll(id) && !SucceedsOn(s, step, id) && !FailsOn(s, step, id) && !Recovers(s, step, id) ==> j' == j)
  {
    if FailsOn(s, step, id) { FailureWaits(s.jobs[id], s.now, step.jitter); }
  }

  /** An enqueue makes one row, with the stated defaults and due at once, when the queue accepts and the key is new;
      otherwise it changes nothing. No other step makes a row. */
  lemma RowsAreMadeExactly(s: State, step: Step, id: nat)
    requires Numbered(s) && Enabled(s, step)
    ensures id in Apply(s, step).jobs && id !in s.jobs <==>
      step.Enqueue? && s.accepting && !HasKey(s, step.key) && id == s.nextId
    ensures id in Apply(s, step).jobs && id !in s.jobs ==>
      var j := Apply(s, step).jobs[id];
      && j.name == step.name && j.payload == step.payload && j.key == step.key
      && j.status == Queued && j.attemptsMade == 0 && j.runAt == s.now && j.lockedAt == None
      && j.maxAttempts == (if step.attempts != 0 then step.attempts else 1)
      && j.backoffMs == (if step.backoffMs != 0 then step.backoffMs else 1000)
    ensures step.Enqueue? && (!s.accepting || HasKey(s, step.key)) ==> Apply(s, step) == s
  {
  }

  // ----- how rows end --------------------------------------------------------

  /** Some step of the run, taken in the state it is taken in. */
  ghost predicate Happens(s: State, steps: seq<Step>, p: (State, Step) -> bool)
    requires Legal(s, steps)
    decreases |steps|
  {
    steps != [] && (p(s, steps[0]) || Happens(Apply(s, steps[0]), steps[1..], p))
  }

  /** The handler of the row throws in its last attempt. */
  function FailsLast(id: nat): (State, Step) -> bool {
    (s: State, step: Step) =>
      FailsOn(s, step, id) && s.claims[step.ticket].doc.attemptsMade >= s.claims[step.ticket].doc.maxAttempts
  }

  function Returns(id: nat): (State, Step) -> bool {
    (s: State, step: Step) => SucceedsOn(s, step, id)
  }

  lemma NewRowIsQueued(s: State, step: Step, id: nat)
    requires Numbered(s) && Enabled(s, step) && id !in s.jobs && id in Apply(s, step).jobs
    ensures Apply(s, step).jobs[id].status == Queued
  {
    RowsAreMadeExactly(s, step, id);
  }

  /** The step that ends a row. */
  lemma EndingStep(s: State, step: Step, id: nat)
    requires Inv(s) && Enabled(s, step) && id in Apply(s, step).jobs && Terminal(Apply(s, step).jobs[id])
    requires id in s.jobs ==> !Terminal(s.jobs[id])
    ensures id in s.jobs
    ensures Apply(s, step).jobs[id].status.Dead? ==> FailsLast(id)(s, step)
    ensures Apply(s, step).jobs[id].status.Completed? ==> Returns(id)(s, step)
  {
    if id in s.jobs { RowChangesExactly(s, step, id); } else { NewRowIsQueued(s, step, id); }
  }

  /** In every run, crashes and restarts included, a row is dead only if its handler threw in an attempt that was its
      last, and completed only if its handler returned. */
  lemma {:induction false} RowsEndOnlyByOutcomes(s: State, steps: seq<Step>, id: nat)
    requires Inv(s) && Legal(s, steps) && id in Final(s, steps).jobs
    requires id in s.jobs ==> !Terminal(s.jobs[id])
    ensures Final(s, steps).jobs[id].status.Dead? ==> Happens(s, steps, FailsLast(id))
    ensures Final(s, steps).jobs[id].status.Completed? ==> Happens(s, steps, Returns(id))
    decreases |steps|
  {
    if steps != [] {
      var s' := Apply(s, steps[0]);
      StepKeepsInv(s, steps[0]);
      if id in s'.jobs && Terminal(s'.jobs[id]) {
        EndingStep(s, steps[0], id);
        TerminalIsForever(s', steps[1..], id);
      } else {
        RowsEndOnlyByOutcomes(s', steps[1..], id);
      }
    }
  }

  // ----- restarts ------------------------------------------------------------

  /** A start of a stopped queue with no handler in flight: it accepts and polls, every active row is due at once with
      its attempts as they were and one recovery more, and every other row is as it was. */
  lemma StartRecoversExactly(s: State, id: nat)
    requires ClaimsHold(s) && !s.polling && id in s.jobs
    ensures var s' := Apply(s, Start);
      && s'.accepting && s'.polling && s'.claims == s.claims && s'.now == s.now && s'.jobs.Keys == s.jobs.Keys
      && (s.jobs[id].status.Active? ==>
            && Due(s', id) && s'.jobs[id].attemptsMade == s.jobs[id].attemptsMade
            && RecoveriesOf(s', id) == RecoveriesOf(s, id) + 1)
      && (!s.jobs[id].status.Active? ==>
            s'.jobs[id] == s.jobs[id] && RecoveriesOf(s', id) == RecoveriesOf(s, id))
  {
  }

  /** A crash loses the handlers and no row; the new process has not started polling. */
  lemma CrashKeepsRows(s: State)
    ensures var s' := Apply(s, Crash);
      s'.jobs == s.jobs && s'.claims == map[] && s'.accepting && !s'.polling && s'.now == s.now
  {
  }

  /** The process crashes, starts again, and the clock ticks. */
  function Restarted(s: State, ms: nat): State { Apply(Apply(Apply(s, Crash), Start), Tick(ms)) }

  lemma RestartMakesOverdue(s: State, ms: nat, id: nat)
    requires Inv(s) && id in s.jobs && s.jobs[id].status.Active? && ms > 0
    ensures Inv(Restarted(s, ms)) && Restarted(s, ms).polling && Overdue(Restarted(s, ms), id)
    ensures Restarted(s, ms).jobs[id].attemptsMade == s.jobs[id].attemptsMade
  {
    var s1 := Apply(s, Crash);
    StepKeepsInv(s, Crash);
    StepKeepsInv(s1, Start);
    StepKeepsInv(Apply(s1, Start), Tick(ms));
    StartRecoversExactly(s1, id);
  }

  /** A job in flight when the process crashes is claimed again after the restart, however many attempts it has used:
      within as many polls as rows are due no later, whatever happens in between. */
  lemma {:induction false} CrashedJobIsClaimedAgain(s: State, ms: nat, steps: seq<Step>, id: nat)
    requires Inv(s) && id in s.jobs && s.jobs[id].status.Active? && ms > 0 && Legal(Restarted(s, ms), steps)
    ensures id in Restarted(s, ms).jobs
    ensures Polls(steps) >= |NoLater(Restarted(s, ms), id)| ==> exists i :: 0 <= i < |steps| && steps[i] == Poll(id)
  {
    RestartMakesOverdue(s, ms, id);
    if Polls(steps) >= |NoLater(Restarted(s, ms), id)| { NoStarvation(Restarted(s, ms), steps, id); }
  }
}
