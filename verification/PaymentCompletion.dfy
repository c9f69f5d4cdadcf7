/** When a verification job is certain to complete, and how reaping its transaction can kill it. */
module PaymentCompletion {
  import opened Options
  import opened JobQueue
  import opened JobQueueSafety
  import opened PaymentJob
  import opened PaymentSafety
  import opened PaymentProgress

  // ----- which transactions can vanish ---------------------------------------

  /** The TTL index covers pending rows with an expiry: no other row is ever reaped. */
  predicate Unreapable(tx: Tx) { !tx.status.Pending? || tx.expiresAt.None? }

  lemma UnreapableStays(w: World, a: Action, x: string)
    requires Keyed(w) && Can(w, a) && x in w.txs && Unreapable(w.txs[x])
    ensures x in Do(w, a).txs && Unreapable(Do(w, a).txs[x])
  {
    if a.Run? { HandlerLeavesUnreapable(w, a.ticket, a.verdict, x); }
  }

  lemma HandlerLeavesUnreapable(w: World, t: nat, v: Verdict, x: string)
    requires Can(w, Run(t, v)) && x in w.txs && Unreapable(w.txs[x])
    ensures x in RunHandler(w, t, v).txs && Unreapable(RunHandler(w, t, v).txs[x])
  {
  }

  /** A row that is submitted, retrying or settled, or has no expiry, stays so through every run, crashes included. */
  lemma {:induction false} UnreapableForever(w: World, actions: seq<Action>, x: string)
    requires WorldInv(w) && Possible(w, actions) && x in w.txs && Unreapable(w.txs[x])
    ensures x in Outcome(w, actions).txs && Unreapable(Outcome(w, actions).txs[x])
    decreases |actions|
  {
    if actions != [] {
      ActionKeeps(w, actions[0]);
      UnreapableStays(w, actions[0], x);
      UnreapableForever(Do(w, actions[0]), actions[1..], x);
    }
  }

  /** The row is there, out of the reaper's reach or still with its expiry, or the expiry has passed. */
  predicate Lasts(w: World, x: string, expiry: int) {
    || expiry <= w.queue.now
    || (x in w.txs && (Unreapable(w.txs[x]) || w.txs[x].expiresAt == Some(expiry)))
  }

  lemma ClockIsMonotone(s: State, step: Step)
    requires Enabled(s, step)
    ensures Apply(s, step).now >= s.now
  {
  }

  /** A pending row keeps its expiry until it is settled or the clock has reached it. */
  lemma PendingRowLasts(w: World, a: Action, x: string, expiry: int)
    requires Keyed(w) && Can(w, a) && !a.QueueStep? && Lasts(w, x, expiry) && !(x in w.txs && Unreapable(w.txs[x]))
    ensures Lasts(Do(w, a), x, expiry)
  {
  }

  lemma StepLasts(w: World, a: Action, x: string, expiry: int)
    requires Keyed(w) && Can(w, a) && Lasts(w, x, expiry)
    ensures Lasts(Do(w, a), x, expiry)
  {
    if a.QueueStep? {
      ClockIsMonotone(w.queue, a.step);
    } else if x in w.txs && Unreapable(w.txs[x]) {
      UnreapableStays(w, a, x);
    } else {
      PendingRowLasts(w, a, x, expiry);
    }
  }

  lemma {:induction false} RunLasts(w: World, actions: seq<Action>, x: string, expiry: int)
    requires WorldInv(w) && Possible(w, actions) && Lasts(w, x, expiry)
    ensures Lasts(Outcome(w, actions), x, expiry)
    decreases |actions|
  {
    if actions != [] {
      ActionKeeps(w, actions[0]);
      StepLasts(w, actions[0], x, expiry);
      RunLasts(Do(w, actions[0]), actions[1..], x, expiry);
    }
  }

  lemma OnlyReapingRemoves(w: World, a: Action, x: string)
    requires Can(w, a) && x in w.txs
    ensures x in Do(w, a).txs <==> a != Reap(x)
  {
  }

  lemma IdsAreNotReused(w: World, a: Action, x: string)
    requires Can(w, a) && x in w.hashes
    ensures x in Do(w, a).hashes
    ensures x !in w.txs ==> x !in Do(w, a).txs
  {
  }

  lemma {:induction false} GoneForGood(w: World, actions: seq<Action>, x: string)
    requires Possible(w, actions) && x in w.hashes && x !in w.txs
    ensures x !in Outcome(w, actions).txs
    decreases |actions|
  {
    if actions != [] {
      IdsAreNotReused(w, actions[0], x);
      GoneForGood(Do(w, actions[0]), actions[1..], x);
    }
  }

  /** A transaction is gone after a run exactly when the run reaped it. */
  lemma {:induction false} GoneExactlyWhenReaped(w: World, actions: seq<Action>, x: string)
    requires Possible(w, actions) && x in w.txs && x in w.hashes
    ensures x in Outcome(w, actions).txs <==> Reap(x) !in actions
    decreases |actions|
  {
    if actions != [] {
      var w' := Do(w, actions[0]);
      assert Reap(x) in actions <==> actions[0] == Reap(x) || Reap(x) in actions[1..];
      OnlyReapingRemoves(w, actions[0], x);
      IdsAreNotReused(w, actions[0], x);
      if actions[0] == Reap(x) {
        GoneForGood(w', actions[1..], x);
      } else {
        GoneExactlyWhenReaped(w', actions[1..], x);
      }
    }
  }

  // ----- completion ----------------------------------------------------------

  predicate Verifies(w: World, id: nat, x: string) {
    id in w.queue.jobs && w.queue.jobs[id].name == VERIFY && w.queue.jobs[id].payload == x
  }

  /** What a verification job promises: it is never dead and never runs more than `maxAttempts` times, once its last
      run is over it is completed, and when it is completed its transaction is confirmed or failed, with no expiry. */
  predicate OnCourse(j: Job, row: Option<Tx>) {
    && row.Some? && !j.status.Dead? && j.attemptsMade <= j.maxAttempts
    && (j.status.Completed? ==> Settled(row.value) && row.value.expiresAt.None?)
    && (j.attemptsMade == j.maxAttempts && !j.status.Active? ==> j.status.Completed?)
  }

  lemma RowOnCourse(w: World, id: nat, x: string)
    requires SmoothInv(w) && Verifies(w, id, x)
    ensures OnCourse(w.queue.jobs[id], RowOf(w, x)) <==> x in w.txs
  {
    assert VerifyRowOk(w.queue.jobs[id], RowOf(w, x));
    assert RowOk(w.queue.jobs[id], RecoveriesOf(w.queue, id), CallsOf(w.queue, id));
  }

  lemma {:induction false} SmoothFrom(w: World, actions: seq<Action>, x: string)
    requires SmoothInv(w) && x in w.txs && SmoothRun(w, actions)
    ensures Possible(w, actions) && SmoothInv(Outcome(w, actions))
    ensures x in Outcome(w, actions).txs <==> Reap(x) !in actions
  {
    SmoothRunsKeep(w, actions);
    GoneExactlyWhenReaped(w, actions, x);
  }

  lemma {:induction false} SmoothStart(before: seq<Action>)
    requires SmoothRun(Begin, before)
    ensures Possible(Begin, before) && SmoothInv(Outcome(Begin, before))
  {
    BeginInv();
    SmoothRunsKeep(Begin, before);
  }

  /** In every smooth run, from any moment on at which the transaction is there, its verification job keeps its
      promise if and only if the run does not reap the transaction. */
  lemma {:induction false} CompletesExactlyWhenNotReaped(before: seq<Action>, after: seq<Action>, x: string, id: nat)
    requires SmoothRun(Begin, before)
    ensures Possible(Begin, before)
    ensures var w := Outcome(Begin, before);
      x in w.txs && SmoothRun(w, after) ==>
        && Possible(w, after)
        && (Verifies(Outcome(w, after), id, x) ==>
              (OnCourse(Outcome(w, after).queue.jobs[id], RowOf(Outcome(w, after), x)) <==> Reap(x) !in after))
  {
    SmoothStart(before);
    var w := Outcome(Begin, before);
    if x in w.txs && SmoothRun(w, after) {
      SmoothFrom(w, after, x);
      if Verifies(Outcome(w, after), id, x) { RowOnCourse(Outcome(w, after), id, x); }
    }
  }

  /** A row the reaper cannot take before the clock reads `now`. */
  predicate SafeUntil(tx: Tx, now: int) { Unreapable(tx) || now < tx.expiresAt.value }

  lemma {:induction false} SafeRowStays(w: World, actions: seq<Action>, x: string)
    requires WorldInv(w) && Possible(w, actions) && x in w.txs && SafeUntil(w.txs[x], Outcome(w, actions).queue.now)
    ensures x in Outcome(w, actions).txs
  {
    if Unreapable(w.txs[x]) {
      UnreapableForever(w, actions, x);
    } else {
      RunLasts(w, actions, x, w.txs[x].expiresAt.value);
    }
  }

  /** In every smooth run the verification job of a transaction that is not pending or has no expiry when it is
      submitted keeps its promise, and that of a pending one does as long as the clock has not reached its expiry. */
  lemma {:induction false} VerificationCompletes(before: seq<Action>, after: seq<Action>, x: string, id: nat)
    requires SmoothRun(Begin, before)
    ensures Possible(Begin, before)
    ensures var w := Outcome(Begin, before);
      x in w.txs && SmoothRun(w, after) ==>
        && Possible(w, after)
        && (Verifies(Outcome(w, after), id, x) && SafeUntil(w.txs[x], Outcome(w, after).queue.now) ==>
              OnCourse(Outcome(w, after).queue.jobs[id], RowOf(Outcome(w, after), x)))
  {
    SmoothStart(before);
    var w := Outcome(Begin, before);
    if x in w.txs && SmoothRun(w, after) {
      SmoothFrom(w, after, x);
      var w' := Outcome(w, after);
      if Verifies(w', id, x) && SafeUntil(w.txs[x], w'.queue.now) {
        SafeRowStays(w, after, x);
        RowOnCourse(w', id, x);
      }
    }
  }

  // ----- certainty -----------------------------------------------------------

  ghost predicate StaysOnCourse(w: World, x: string, id: nat, after: seq<Action>) {
    SmoothRun(w, after) ==>
      && Possible(w, after) && Verifies(Outcome(w, after), id, x)
      && OnCourse(Outcome(w, after).queue.jobs[id], RowOf(Outcome(w, after), x))
  }

  /** Whatever smooth run follows, the job keeps its promise. */
  ghost predicate Certain(w: World, x: string, id: nat) {
    forall after :: StaysOnCourse(w, x, id, after)
  }

  lemma JobStays(w: World, a: Action, id: nat, x: string)
    requires Inv(w.queue) && Can(w, a) && Verifies(w, id, x)
    ensures Verifies(Do(w, a), id, x)
  {
    if a.QueueStep? {
      QueueStepKeepsJob(w.queue, a.step, id);
    } else {
      OtherActionKeepsJob(w, a, id);
    }
  }

  lemma QueueStepKeepsJob(s: State, step: Step, id: nat)
    requires Numbered(s) && Enabled(s, step) && id in s.jobs
    ensures id in Apply(s, step).jobs && SameIdentity(s.jobs[id], Apply(s, step).jobs[id])
  {
    StepRowsFrame(s, step);
  }

  lemma OtherActionKeepsJob(w: World, a: Action, id: nat)
    requires Numbered(w.queue) && Can(w, a) && !a.QueueStep? && id in w.queue.jobs
    ensures id in Do(w, a).queue.jobs && Do(w, a).queue.jobs[id] == w.queue.jobs[id]
  {
    if a.Run? { HandlerKeepsJob(w, a.ticket, a.verdict, id); }
  }

  lemma HandlerKeepsJob(w: World, t: nat, v: Verdict, id: nat)
    requires Numbered(w.queue) && Can(w, Run(t, v)) && id in w.queue.jobs
    ensures id in RunHandler(w, t, v).queue.jobs && RunHandler(w, t, v).queue.jobs[id] == w.queue.jobs[id]
  {
  }

  lemma {:induction false} JobStaysForever(w: World, actions: seq<Action>, id: nat, x: string)
    requires WorldInv(w) && Possible(w, actions) && Verifies(w, id, x)
    ensures Verifies(Outcome(w, actions), id, x)
    decreases |actions|
  {
    if actions != [] {
      ActionKeeps(w, actions[0]);
      JobStays(w, actions[0], id, x);
      JobStaysForever(Do(w, actions[0]), actions[1..], id, x);
    }
  }

  function UntilExpiry(w: World, x: string): nat
    requires x in w.txs && w.txs[x].expiresAt.Some?
  {
    if w.txs[x].expiresAt.value > w.queue.now then w.txs[x].expiresAt.value - w.queue.now else 0
  }

  /** Wait for the expiry, then reap. */
  function ReapRun(w: World, x: string): seq<Action>
    requires x in w.txs && w.txs[x].expiresAt.Some?
  {
    [QueueStep(Tick(UntilExpiry(w, x))), Reap(x)]
  }

  lemma {:induction false} RunOfTwo(w: World, a: Action, b: Action)
    requires Smooth(w, a) && Smooth(Do(w, a), b)
    ensures SmoothRun(w, [a, b]) && Possible(w, [a, b]) && Outcome(w, [a, b]) == Do(Do(w, a), b)
  {
    var w1 := Do(w, a);
    assert [a, b][1..] == [b] && [b][1..] == [];
    assert SmoothRun(Do(w1, b), []) && Possible(Do(w1, b), []) && Outcome(Do(w1, b), []) == Do(w1, b);
    assert SmoothRun(w1, [b]) && Possible(w1, [b]) && Outcome(w1, [b]) == Do(w1, b);
  }

  lemma {:induction false} PendingCanBeReaped(w: World, x: string)
    requires x in w.txs && !Unreapable(w.txs[x])
    ensures SmoothRun(w, ReapRun(w, x)) && Possible(w, ReapRun(w, x)) && x !in Outcome(w, ReapRun(w, x)).txs
  {
    RunOfTwo(w, QueueStep(Tick(UntilExpiry(w, x))), Reap(x));
  }

  /** At any moment of a smooth run a job is certain to keep its promise if and only if its transaction is not pending
      or has no expiry. */
  lemma {:induction false} CertainExactlyWhenUnreapable(before: seq<Action>, x: string, id: nat)
    requires SmoothRun(Begin, before)
    ensures Possible(Begin, before)
    ensures var w := Outcome(Begin, before);
      x in w.txs && Verifies(w, id, x) ==> (Certain(w, x, id) <==> Unreapable(w.txs[x]))
  {
    SmoothStart(before);
    var w := Outcome(Begin, before);
    if x in w.txs && Verifies(w, id, x) {
      if Unreapable(w.txs[x]) {
        forall after ensures StaysOnCourse(w, x, id, after) {
          if SmoothRun(w, after) { UnreapableIsCertain(w, x, id, after); }
        }
      } else {
        PendingCanBeReaped(w, x);
        assert !StaysOnCourse(w, x, id, ReapRun(w, x));
      }
    }
  }

  lemma {:induction false} UnreapableIsCertain(w: World, x: string, id: nat, after: seq<Action>)
    requires SmoothInv(w) && x in w.txs && Verifies(w, id, x) && Unreapable(w.txs[x]) && SmoothRun(w, after)
    ensures StaysOnCourse(w, x, id, after)
  {
    SmoothFrom(w, after, x);
    JobStaysForever(w, after, id, x);
    UnreapableForever(w, after, x);
    RowOnCourse(Outcome(w, after), id, x);
  }
}
