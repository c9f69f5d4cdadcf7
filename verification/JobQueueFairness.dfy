/** No waiting job is starved: the earliest due time wins, and work made due later never overtakes. */
module JobQueueFairness {
  import opened JobQueue
  import opened JobQueueSafety

  /** Waiting rows due no later than row `id`, itself included. */
  function NoLater(s: State, id: nat): set<nat>
    requires id in s.jobs
  {
    set other | other in s.jobs && Waiting(s.jobs[other]) && s.jobs[other].runAt <= s.jobs[id].runAt
  }

  predicate Overdue(s: State, id: nat) {
    id in s.jobs && Waiting(s.jobs[id]) && s.jobs[id].runAt < s.now
  }

  /** `s'` leaves the overdue row alone and puts no row ahead of it that was not there. */
  ghost predicate NobodyOvertakes(s: State, s': State, id: nat)
    requires id in s.jobs
  {
    && id in s'.jobs && s'.jobs[id] == s.jobs[id] && s'.now >= s.now
    && forall other :: other in s'.jobs && Waiting(s'.jobs[other]) && s'.jobs[other].runAt <= s.jobs[id].runAt ==>
         other in s.jobs && s'.jobs[other] == s.jobs[other]
  }

  lemma SettleNeverOvertakes(s: State, t: nat, f: Job -> Job, id: nat)
    requires WorkOk(s) && t in s.claims && Overdue(s, id)
    requires forall j :: Waiting(f(j)) ==> f(j).runAt >= s.now
    ensures NobodyOvertakes(s, Settle(s, t, f), id)
  {
  }

  lemma PollNeverOvertakes(s: State, pick: nat, id: nat)
    requires Overdue(s, id) && EarliestDue(s, pick) && pick != id
    ensures NobodyOvertakes(s, DoPoll(s, pick), id)
    ensures pick in NoLater(s, id) && pick !in NoLater(DoPoll(s, pick), id)
  {
  }

  /** While row `id` is overdue, a step either claims it, or leaves it alone and lets no other row in ahead of it;
      claiming another row takes one out. */
  lemma StepNeverOvertakes(s: State, step: Step, id: nat)
    requires Inv(s) && Enabled(s, step) && Overdue(s, id) && step != Poll(id)
    ensures Overdue(Apply(s, step), id)
    ensures NoLater(Apply(s, step), id) <= NoLater(s, id)
    ensures step.Poll? ==> step.pick in NoLater(s, id) && step.pick !in NoLater(Apply(s, step), id)
  {
    if step.Poll? {
      PollNeverOvertakes(s, step.pick, id);
    } else {
      OtherStepNeverOvertakes(s, step, id);
    }
    StillOverdue(s, Apply(s, step), id);
  }

  lemma StillOverdue(s: State, s': State, id: nat)
    requires Overdue(s, id) && NobodyOvertakes(s, s', id)
    ensures Overdue(s', id) && NoLater(s', id) <= NoLater(s, id)
  {
  }

  lemma OtherStepNeverOvertakes(s: State, step: Step, id: nat)
    requires WorkOk(s) && Enabled(s, step) && Overdue(s, id) && !step.Poll?
    ensures NobodyOvertakes(s, Apply(s, step), id)
  {
    match step
    case Succeed(t) => SettleNeverOvertakes(s, t, Finished, id);
    case Fail(t, jitter) => SettleNeverOvertakes(s, t, Failed(s.claims[t].doc, s.now, jitter), id);
    case _ =>
  }

  function Polls(steps: seq<Step>): nat {
    if steps == [] then 0 else Polls(steps[1..]) + if steps[0].Poll? then 1 else 0
  }

  lemma FewerAhead(a: set<nat>, b: set<nat>, x: nat)
    requires a <= b && x in b && x !in a
    ensures |a| < |b|
  {
    assert a <= b - {x};
    Subset(a, b - {x});
  }

  lemma {:induction false} Subset(a: set<nat>, b: set<nat>)
    requires a <= b
    ensures |a| <= |b|
    decreases a
  {
    if a != {} {
      var x :| x in a;
      Subset(a - {x}, b - {x});
    }
  }

  /** An overdue job is claimed within as many polls as there are waiting jobs due no later than it,
      whatever enqueues, outcomes, crashes and restarts happen in between. */
  lemma {:induction false} NoStarvation(s: State, steps: seq<Step>, id: nat)
    requires Inv(s) && Legal(s, steps) && Overdue(s, id)
    requires Polls(steps) >= |NoLater(s, id)|
    ensures exists i :: 0 <= i < |steps| && steps[i] == Poll(id)
    decreases |steps|
  {
    assert id in NoLater(s, id);
    assert |NoLater(s, id)| > 0;
    if steps[0] == Poll(id) {
    } else {
      var s' := Apply(s, steps[0]);
      StepKeepsInv(s, steps[0]);
      StepNeverOvertakes(s, steps[0], id);
      if steps[0].Poll? {
        FewerAhead(NoLater(s', id), NoLater(s, id), steps[0].pick);
      } else {
        Subset(NoLater(s', id), NoLater(s, id));
      }
      NoStarvation(s', steps[1..], id);
      var i :| 0 <= i < |steps[1..]| && steps[1..][i] == Poll(id);
      assert steps[i + 1] == Poll(id);
    }
  }

  /** A poll is never idle while some row is due. */
  lemma {:induction false} PollFindsWork(s: State, id: nat)
    requires Due(s, id)
    ensures exists pick :: EarliestDue(s, pick)
  {
    var due := set other | other in s.jobs && Due(s, other);
    assert id in due;
    var pick := EarliestOf(s, due);
    assert EarliestDue(s, pick);
  }

  lemma {:induction false} EarliestOf(s: State, due: set<nat>) returns (pick: nat)
    requires due != {} && forall d :: d in due ==> d in s.jobs
    ensures pick in due && forall d :: d in due ==> s.jobs[pick].runAt <= s.jobs[d].runAt
    decreases due
  {
    var first :| first in due;
    var others := due - {first};
    assert forall d :: d in due ==> d == first || d in others;
    if others == {} {
      pick := first;
    } else {
      var rest := EarliestOf(s, others);
      pick := if s.jobs[rest].runAt < s.jobs[first].runAt then rest else first;
    }
  }
}
