/** The queue module as it runs: the job collection and the module's variables, updated in place
    by each operation. Every method is one step of the transition system. */
module JobWorker {
  import opened Options
  import opened Backoff
  import opened JobQueue
  import opened JobQueueFairness

  datatype EnqueueError = ShuttingDown

  datatype Receipt = Receipt(id: nat, duplicate: bool)

  /** With no earliest due row there is no due row. */
  lemma NoneIsDue(s: State)
    requires forall pick :: pick in s.jobs ==> !EarliestDue(s, pick)
    ensures forall id :: !Due(s, id)
  {
    forall id ensures !Due(s, id) {
      if Due(s, id) { PollFindsWork(s, id); }
    }
  }

  class Worker {
    var jobs: map<nat, Job>
    var nextId: nat
    var inFlight: map<nat, Claim>
    var nextTicket: nat
    var accepting: bool
    var pollTimer: bool
    ghost var calls: map<nat, seq<Context>>
    ghost var recoveries: map<nat, nat>

    ghost function At(now: int): State
      reads this
    {
      State(jobs, nextId, inFlight, nextTicket, accepting, pollTimer, now, calls, recoveries)
    }

    /** What a query sees. */
    function Store(now: int): State
      reads this
    {
      State(jobs, nextId, inFlight, nextTicket, accepting, pollTimer, now, map[], map[])
    }

    constructor ()
      ensures At(0) == Init
    {
      jobs, nextId, inFlight, nextTicket := map[], 0, map[], 0;
      accepting, pollTimer := true, false;
      calls, recoveries := map[], map[];
    }

    method Enqueue(name: string, payload: string, attempts: int, backoffMs: nat, key: string, now: int)
      returns (r: Result<Receipt, EnqueueError>)
      modifies this
      ensures At(now) == DoEnqueue(old(At(now)), name, payload, attempts, backoffMs, key)
      ensures r.Err? <==> !old(accepting)
      ensures r.Ok? ==> r.value.id in jobs && jobs[r.value.id].key == key
                        && r.value.duplicate == (jobs[r.value.id].attemptsMade > 0)
    {
      if !accepting {
        return Err(ShuttingDown);
      }
      var id := nextId;
      if found :| found in jobs && jobs[found].key == key {
        assert HasKey(At(now), key);
        id := found;
      } else {
        jobs := jobs[id := NewJob(name, payload, attempts, backoffMs, key, now)];
        nextId := nextId + 1;
        calls, recoveries := calls[id := []], recoveries[id := 0];
      }
      r := Ok(Receipt(id, jobs[id].attemptsMade > 0));
    }

    /** Claim the next due row and put its handler in flight; nothing happens when none is due. */
    method ProcessNext(now: int) returns (ticket: Option<nat>)
      modifies this
      ensures ticket.None? ==> At(now) == old(At(now)) && forall id :: !Due(At(now), id)
      ensures ticket.Some? ==>
        (ticket.value in inFlight
         && EarliestDue(old(At(now)), inFlight[ticket.value].id)
         && At(now) == DoPoll(old(At(now)), inFlight[ticket.value].id))
    {
      ghost var before := At(now);
      var id: nat := 0;
      if pick :| pick in jobs && EarliestDue(Store(now), pick) {
        id := pick;
      } else {
        NoneIsDue(Store(now));
        return None;
      }
      assert EarliestDue(before, id);
      var job := Claimed(jobs[id], now);
      jobs := jobs[id := job];
      inFlight := inFlight[nextTicket := Claim(id, job)];
      ticket := Some(nextTicket);
      nextTicket := nextTicket + 1;
      calls := DoPoll(before, id).calls;
    }

    method HandlerReturned(ticket: nat, now: int)
      requires ticket in inFlight
      modifies this
      ensures At(now) == Settle(old(At(now)), ticket, Finished)
    {
      var id := inFlight[ticket].id;
      if id in jobs {
        jobs := jobs[id := jobs[id].(status := Completed, lockedAt := None)];
      }
      inFlight := inFlight - {ticket};
    }

    method HandlerThrew(ticket: nat, now: int, jitter: real)
      requires ticket in inFlight && 0.0 <= jitter < 1.0
      modifies this
      ensures At(now) == Settle(old(At(now)), ticket, Failed(old(inFlight[ticket].doc), now, jitter))
    {
      var id, job := inFlight[ticket].id, inFlight[ticket].doc;
      var exhausted := job.attemptsMade >= job.maxAttempts;
      if id in jobs {
        if exhausted {
          jobs := jobs[id := jobs[id].(status := Dead, lockedAt := None)];
        } else {
          var runAt := now + RetryDelay(job.backoffMs, job.attemptsMade, jitter);
          jobs := jobs[id := jobs[id].(status := Retrying, runAt := runAt, lockedAt := None)];
        }
      }
      inFlight := inFlight - {ticket};
    }

    method StartJobs(now: int)
      modifies this
      ensures At(now) == DoStart(old(At(now)))
    {
      if pollTimer {
        return;
      }
      accepting := true;
      ghost var before := At(now);
      jobs := map id | id in jobs :: Requeued(jobs[id], now);
      recoveries := DoStart(before).recoveries;
      pollTimer := true;
    }

    /** Stops accepting and polling; waiting for `inFlight` to drain is the caller's next steps. */
    method StopJobs(now: int)
      modifies this
      ensures At(now) == old(At(now)).(accepting := false, polling := false)
    {
      accepting := false;
      pollTimer := false;
    }
  }
}
