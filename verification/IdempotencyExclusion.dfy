/** One handler per slot, what breaks that, and what later requests are told. */
module IdempotencyExclusion {
  import opened Options
  import opened Idempotency
  import opened IdempotencySafety

  // ----- theorems over every interleaving ------------------------------------

  /** Every replay is the one response captured by a request for the same slot with the same digest, with a status
      below 500; every request captures at most once; and there is at most one record per slot. */
  lemma {:induction false} FaithfulReplay(steps: seq<Step>)
    requires Possible(Init, steps)
    ensures var s := Final(Init, steps);
      && (forall r :: r in s.requests && IsReplay(s.requests[r]) ==>
            Answered(s, s.requests[r].slot, s.requests[r].digest, s.requests[r].phase.outcome.response))
      && (forall r :: r in s.requests ==> |s.requests[r].log| <= 1)
      && OneRecordPerSlot(s)
  {
    RunKeeps(Init, steps);
    var s := Final(Init, steps);
    forall r | r in s.requests ensures |s.requests[r].log| <= 1 {
      assert RequestOk(s.requests[r]);
    }
  }

  /** The records are kept as they are, up to one new record. */
  ghost predicate RecordsKept(s: State, s': State) {
    forall id :: id in s.records ==> id in s'.records && s'.records[id] == s.records[id]
  }

  lemma PlainStepKeepsRecords(s: State, step: Step)
    requires RecordsOk(s) && Enabled(s, step) && !step.Land? && !step.Expire?
    ensures RecordsKept(s, Apply(s, step))
  {
  }

  /** Handlers are started by creating the record of a free slot, and in no other way. */
  lemma HandlersStartByCreating(s: State, step: Step, b: nat)
    requires Enabled(s, step) && IsHandling(Apply(s, step), b) && !IsHandling(s, b)
    ensures step == Create(b) && b in s.requests && !Taken(s, Apply(s, step).requests[b].slot)
    ensures Apply(s, step).requests[b].phase.record in Apply(s, step).records
  {
  }

  /** A record is changed or deleted only by a write its creator issued, or deleted by the TTL monitor. */
  lemma OnlyTheCreatorWrites(s: State, step: Step, id: nat)
    requires Inv(s) && Enabled(s, step) && id in s.records
    requires id !in Apply(s, step).records || Apply(s, step).records[id] != s.records[id]
    ensures
      || step.Expire?
      || (step.Land? && s.writes[step.w].record == id && s.writes[step.w].author == s.records[id].owner)
  {
    if step.Land? {
      if s.writes[step.w].record == id { WriteHitsOwn(s, step.w); }
    } else if !step.Expire? {
      PlainStepKeepsRecords(s, step);
    }
  }

  // ----- one handler per slot ------------------------------------------------

  /** Running, or done with a status below 500. */
  predicate Holder(q: Request) { InFlight(q) || Succeeded(q) }

  ghost predicate Held(s: State) {
    forall r :: r in s.requests && Holder(s.requests[r]) ==> s.requests[r].phase.record in s.records
  }

  /** Every deletion still to land answers a server error. */
  ghost predicate RemovesErrored(s: State) {
    forall w :: w in s.writes && s.writes[w].Remove? ==>
      s.writes[w].author in s.requests && Errored(s.requests[s.writes[w].author])
  }

  /** No TTL deletion, and a response closes only once it was captured or ended, as every finished response does. */
  predicate Quiet(s: State, step: Step) {
    && !step.Expire?
    && (step.Close? && step.r in s.requests ==> s.requests[step.r].captured || s.requests[step.r].ended)
  }

  predicate QuietRun(s: State, steps: seq<Step>)
    decreases |steps|
  {
    steps != [] ==> Enabled(s, steps[0]) && Quiet(s, steps[0]) && QuietRun(Apply(s, steps[0]), steps[1..])
  }

  lemma LandKeepsHeld(s: State, w: nat)
    requires Inv(s) && Held(s) && RemovesErrored(s) && w in s.writes
    ensures Held(DoLand(s, w))
  {
    forall r | r in s.requests && Holder(s.requests[r]) ensures s.requests[r].phase.record in DoLand(s, w).records {
      LandKeepsHolder(s, w, r);
    }
  }

  lemma LandKeepsHolder(s: State, w: nat, r: nat)
    requires OneOwnerPerRecord(s) && WritesOk(s) && Held(s) && RemovesErrored(s) && w in s.writes
    requires r in s.requests && Holder(s.requests[r])
    ensures s.requests[r].phase.record in DoLand(s, w).records
  {
    assert WriteOk(s.writes[w], s.requests[s.writes[w].author]);
  }

  lemma QuietStepKeeps(s: State, step: Step)
    requires Inv(s) && Held(s) && RemovesErrored(s) && Enabled(s, step) && Quiet(s, step)
    ensures Held(Apply(s, step)) && RemovesErrored(Apply(s, step))
  {
    if step.Land? {
      LandKeepsHeld(s, step.w);
    } else {
      PlainStepKeepsRecords(s, step);
      forall r | r in Apply(s, step).requests && Holder(Apply(s, step).requests[r])
        ensures Apply(s, step).requests[r].phase.record in Apply(s, step).records
      {
        PlainStepKeepsHeld(s, step, r);
      }
    }
    QuietStepRemovesErrored(s, step);
  }

  lemma PlainStepKeepsHeld(s: State, step: Step, r: nat)
    requires RequestsOk(s) && Held(s) && Enabled(s, step) && RecordsKept(s, Apply(s, step))
    requires r in Apply(s, step).requests && Holder(Apply(s, step).requests[r])
    ensures Apply(s, step).requests[r].phase.record in Apply(s, step).records
  {
    if IsHandling(s, r) {
      StaysHandling(s, step, r);
    } else {
      HandlersStartByCreating(s, step, r);
    }
  }

  lemma StaysHandling(s: State, step: Step, r: nat)
    requires Enabled(s, step) && IsHandling(s, r) && RequestOk(s.requests[r])
    ensures IsHandling(Apply(s, step), r) && Grows(s.requests[r], Apply(s, step).requests[r])
  {
  }

  /** The deletions to land after a quiet step were pending before, or answer a server error captured by the step. */
  lemma QuietStepRemovesErrored(s: State, step: Step)
    requires RequestsOk(s) && RemovesErrored(s) && Enabled(s, step) && Quiet(s, step)
    ensures RemovesErrored(Apply(s, step))
  {
    var s' := Apply(s, step);
    forall w | w in s'.writes && s'.writes[w].Remove?
      ensures s'.writes[w].author in s'.requests && Errored(s'.requests[s'.writes[w].author])
    {
      if w in s.writes && s'.writes[w] == s.writes[w] {
        ErroredStays(s, step, s.writes[w].author);
      }
    }
  }

  lemma ErroredStays(s: State, step: Step, r: nat)
    requires Enabled(s, step) && r in s.requests && RequestOk(s.requests[r]) && Errored(s.requests[r])
    ensures r in Apply(s, step).requests && Errored(Apply(s, step).requests[r])
  {
  }

  lemma {:induction false} QuietRunKeeps(s: State, steps: seq<Step>)
    requires Inv(s) && Held(s) && RemovesErrored(s) && QuietRun(s, steps)
    ensures Possible(s, steps) && Inv(Final(s, steps)) && Held(Final(s, steps)) && RemovesErrored(Final(s, steps))
    decreases |steps|
  {
    if steps != [] {
      StepKeeps(s, steps[0]);
      QuietStepKeeps(s, steps[0]);
      QuietRunKeeps(Apply(s, steps[0]), steps[1..]);
    }
  }

  predicate BothHold(s: State, a: nat, b: nat) {
    && a in s.requests && b in s.requests && s.requests[a].slot == s.requests[b].slot
    && Holder(s.requests[a]) && Holder(s.requests[b])
  }

  lemma HoldersAreExclusive(s: State, a: nat, b: nat)
    requires Inv(s) && Held(s) && BothHold(s, a, b)
    ensures a == b
  {
  }

  /** Without TTL deletions, and as long as no response is closed before it was captured or ended, in every reachable
      state at most one request per slot is running its handler or has succeeded: no second handler starts beside a
      running one, and none starts after a success. */
  lemma {:induction false} OneHandlerPerSlot(steps: seq<Step>)
    requires QuietRun(Init, steps)
    ensures Possible(Init, steps)
    ensures var s := Final(Init, steps);
      forall a, b :: BothHold(s, a, b) ==> a == b
  {
    QuietRunKeeps(Init, steps);
    var s := Final(Init, steps);
    forall a, b | BothHold(s, a, b) ensures a == b {
      HoldersAreExclusive(s, a, b);
    }
  }

  lemma SucceededStays(s: State, step: Step, a: nat)
    requires Enabled(s, step) && a in s.requests && Succeeded(s.requests[a]) && RequestOk(s.requests[a])
    ensures a in Apply(s, step).requests && Succeeded(Apply(s, step).requests[a])
    ensures Apply(s, step).requests[a].slot == s.requests[a].slot
  {
  }

  lemma NoneStartsBesideHolder(s: State, step: Step, a: nat, b: nat)
    requires Inv(s) && Held(s) && Enabled(s, step) && a in s.requests && Holder(s.requests[a])
    requires IsHandling(Apply(s, step), b) && Apply(s, step).requests[b].slot == s.requests[a].slot
    ensures IsHandling(s, b)
  {
    if !IsHandling(s, b) {
      HandlersStartByCreating(s, step, b);
      HolderTakesSlot(s, a);
    }
  }

  lemma HolderTakesSlot(s: State, a: nat)
    requires Inv(s) && Held(s) && a in s.requests && Holder(s.requests[a])
    ensures Taken(s, s.requests[a].slot)
  {
  }

  lemma {:induction false} NoneStartsLater(s: State, steps: seq<Step>, a: nat, b: nat)
    requires Inv(s) && Held(s) && RemovesErrored(s) && QuietRun(s, steps)
    requires a in s.requests && Succeeded(s.requests[a])
    ensures Possible(s, steps)
    ensures IsHandling(Final(s, steps), b) && Final(s, steps).requests[b].slot == s.requests[a].slot ==>
      IsHandling(s, b)
    decreases |steps|
  {
    if steps != [] {
      var s' := Apply(s, steps[0]);
      StepKeeps(s, steps[0]);
      QuietStepKeeps(s, steps[0]);
      assert RequestOk(s.requests[a]);
      SucceededStays(s, steps[0], a);
      NoneStartsLater(s', steps[1..], a, b);
      if IsHandling(s', b) {
        SlotStays(s', steps[1..], b);
        if s'.requests[b].slot == s.requests[a].slot { NoneStartsBesideHolder(s, steps[0], a, b); }
      }
    }
  }

  lemma {:induction false} SlotStays(s: State, steps: seq<Step>, r: nat)
    requires Possible(s, steps) && r in s.requests
    ensures r in Final(s, steps).requests && Final(s, steps).requests[r].slot == s.requests[r].slot
    decreases |steps|
  {
    if steps != [] { SlotStays(Apply(s, steps[0]), steps[1..], r); }
  }

  /** Once a request succeeded, whatever follows, its own response closing included, no request for its slot starts its
      handler again: a request that is handling later was handling already. */
  lemma {:induction false} NeverRunsAgain(before: seq<Step>, after: seq<Step>, a: nat, b: nat)
    requires QuietRun(Init, before)
    ensures Possible(Init, before)
    ensures var s := Final(Init, before);
      QuietRun(s, after) && a in s.requests && Succeeded(s.requests[a]) ==>
        && Possible(s, after)
        && (IsHandling(Final(s, after), b) && Final(s, after).requests[b].slot == s.requests[a].slot ==>
          IsHandling(s, b))
  {
    QuietRunKeeps(Init, before);
    var s := Final(Init, before);
    if QuietRun(s, after) && a in s.requests && Succeeded(s.requests[a]) { NoneStartsLater(s, after, a, b); }
  }

  // ----- what breaks it ------------------------------------------------------

  /** A close leaves only deletions that answer server errors pending, if and only if the response was captured or ended
      by then. */
  lemma CloseIsSafeExactlyWhen(s: State, r: nat)
    requires Inv(s) && RemovesErrored(s) && Enabled(s, Close(r))
    ensures RemovesErrored(DoClose(s, r)) <==> s.requests[r].captured || s.requests[r].ended
  {
    var q, s' := s.requests[r], DoClose(s, r);
    assert RequestOk(q);
    if q.captured || q.ended {
      QuietStepRemovesErrored(s, Close(r));
    } else {
      assert s'.writes[s.nextWrite] == Remove(q.phase.record, r);
    }
  }

  function Without(s: State, id: nat): State { s.(records := s.records - {id}) }

  /** Deleting a record keeps the slot exclusive if and only if its creator was answered with a server error: a close
      or the TTL monitor deleting any other record frees a slot that is still held. */
  lemma DeletingIsSafeExactlyWhen(s: State, id: nat)
    requires Inv(s) && Held(s) && id in s.records
    ensures Held(Without(s, id)) <==> Errored(s.requests[s.records[id].owner])
  {
  }

  function CloseRun(s: State, a: nat, b: nat): seq<Step>
    requires IsHandling(s, a)
  {
    [Close(a), Land(s.nextWrite), Arrive(b, s.requests[a].slot, s.requests[a].digest), Create(b)]
  }

  /** The client of a running handler goes away, its record is deleted, and a retry runs the handler a second time
      while the first is still running. */
  lemma {:induction false} CloseLetsSecondHandlerIn(s: State, a: nat, b: nat)
    requires Inv(s) && IsHandling(s, a) && InFlight(s.requests[a]) && !s.requests[a].closed && !s.requests[a].ended
    requires s.requests[a].phase.record in s.records && b !in s.requests
    ensures Possible(s, CloseRun(s, a, b))
    ensures var s' := Final(s, CloseRun(s, a, b));
      && a != b && a in s'.requests && b in s'.requests && s'.requests[a].slot == s'.requests[b].slot
      && InFlight(s'.requests[a]) && InFlight(s'.requests[b])
  {
    var steps := CloseRun(s, a, b);
    var id := s.requests[a].phase.record;
    assert RecordOk(id, s.records[id], s.requests[s.records[id].owner]);
    assert RequestOk(s.requests[a]);
    var s1 := DoClose(s, a);
    var s2 := DoLand(s1, s.nextWrite);
    assert !Taken(s2, s.requests[a].slot);
    var s3 := Apply(s2, steps[2]);
    var s4 := DoCreate(s3, b);
    RunOfFour(s, steps, s1, s2, s3, s4);
  }

  lemma {:induction false} RunOfFour(s: State, steps: seq<Step>, s1: State, s2: State, s3: State, s4: State)
    requires |steps| == 4
    requires Enabled(s, steps[0]) && s1 == Apply(s, steps[0]) && Enabled(s1, steps[1]) && s2 == Apply(s1, steps[1])
    requires Enabled(s2, steps[2]) && s3 == Apply(s2, steps[2]) && Enabled(s3, steps[3]) && s4 == Apply(s3, steps[3])
    ensures Possible(s, steps) && Final(s, steps) == s4
  {
    var t1, t2, t3 := steps[1..], steps[1..][1..], steps[1..][1..][1..];
    assert t1[0] == steps[1] && t2[0] == steps[2] && t3[0] == steps[3] && t3[1..] == [];
    assert Possible(s4, t3[1..]) && Final(s4, t3[1..]) == s4;
    assert Possible(s3, t3) && Final(s3, t3) == s4;
    assert Possible(s2, t2) && Final(s2, t2) == s4;
    assert Possible(s1, t1) && Final(s1, t1) == s4;
  }

  // ----- a response that bypasses json and send ------------------------------

  /** Ended without `json` or `send`, with its record still in progress. */
  predicate Stuck(s: State, a: nat) {
    && IsHandling(s, a) && InFlight(s.requests[a]) && s.requests[a].ended && !s.requests[a].closed
    && s.requests[a].phase.record in s.records
  }

  predicate StuckWorthy(step: Step, a: nat) { !step.Expire? && !(step.Respond? && step.r == a) }

  predicate StuckRun(s: State, steps: seq<Step>, a: nat)
    decreases |steps|
  {
    steps != [] ==> Enabled(s, steps[0]) && StuckWorthy(steps[0], a) && StuckRun(Apply(s, steps[0]), steps[1..], a)
  }

  ghost predicate NoWriteOf(s: State, a: nat) {
    forall w :: w in s.writes ==> s.writes[w].author != a
  }

  /** The record of such a request, and what keeps it. */
  ghost predicate Blocked(s: State, a: nat) {
    && IsHandling(s, a) && InFlight(s.requests[a]) && s.requests[a].ended
    && s.requests[a].phase.record in s.records && NoWriteOf(s, a)
  }

  lemma BlockedStep(s: State, step: Step, a: nat)
    requires Inv(s) && Blocked(s, a) && Enabled(s, step) && StuckWorthy(step, a)
    ensures Blocked(Apply(s, step), a) && Apply(s, step).requests[a].slot == s.requests[a].slot
    ensures Apply(s, step).requests[a].digest == s.requests[a].digest
  {
    assert RequestOk(s.requests[a]);
    if step.Land? {
      LandKeepsBlocked(s, step.w, a);
    } else {
      PlainStepKeepsRecords(s, step);
      StaysHandling(s, step, a);
      BlockedIssuesNothing(s, step, a);
    }
  }

  lemma BlockedIssuesNothing(s: State, step: Step, a: nat)
    requires Blocked(s, a) && Enabled(s, step) && StuckWorthy(step, a) && !step.Land?
    ensures NoWriteOf(Apply(s, step), a) && a in Apply(s, step).requests
    ensures Apply(s, step).requests[a].log == [] && Apply(s, step).requests[a].ended
  {
  }

  lemma LandKeepsBlocked(s: State, w: nat, a: nat)
    requires Inv(s) && Blocked(s, a) && w in s.writes
    ensures Blocked(DoLand(s, w), a)
  {
  }

  lemma {:induction false} BlockedRun(s: State, steps: seq<Step>, a: nat)
    requires Inv(s) && Blocked(s, a) && StuckRun(s, steps, a)
    ensures Possible(s, steps) && Inv(Final(s, steps)) && Blocked(Final(s, steps), a)
    ensures Final(s, steps).requests[a].slot == s.requests[a].slot
    ensures Final(s, steps).requests[a].digest == s.requests[a].digest
    decreases |steps|
  {
    if steps != [] {
      StepKeeps(s, steps[0]);
      BlockedStep(s, steps[0], a);
      BlockedRun(Apply(s, steps[0]), steps[1..], a);
    }
  }

  /** A response ended without `json` or `send` is never recorded and never released: whatever happens short of the TTL
      deletion, even a close, every later request for the slot is refused, with 409 when its digest is the same. */
  lemma {:induction false} UncapturedEndBlocksSlot(s: State, steps: seq<Step>, a: nat, r: nat)
    requires Inv(s) && Stuck(s, a) && StuckRun(s, steps, a)
    ensures Possible(s, steps)
    ensures var s' := Final(s, steps);
      && Taken(s', s.requests[a].slot)
      && (r in s'.requests && s'.requests[r].slot == s.requests[a].slot ==>
            LookOutcome(s', s'.requests[r]) ==
              Refused(if s'.requests[r].digest == s.requests[a].digest then 409 else 422))
  {
    OpenHasNoWrites(s, a);
    BlockedRun(s, steps, a);
    var s' := Final(s, steps);
    var id := s'.requests[a].phase.record;
    OwnRecord(s', a);
    LookupFinds(s', s.requests[a].slot, s'.nextRecord);
  }

  lemma OpenHasNoWrites(s: State, a: nat)
    requires Inv(s) && a in s.requests && InFlight(s.requests[a]) && !s.requests[a].closed
    ensures NoWriteOf(s, a)
  {
  }

  /** The record a running request holds is its own, and in progress. */
  lemma OwnRecord(s: State, a: nat)
    requires Inv(s) && IsHandling(s, a) && InFlight(s.requests[a]) && s.requests[a].phase.record in s.records
    ensures var record := s.records[s.requests[a].phase.record];
      && record.owner == a && record.slot == s.requests[a].slot && record.digest == s.requests[a].digest
      && record.response.None? && s.requests[a].phase.record < s.nextRecord
  {
  }

  /** A duplicate whose record is gone by the time it looks is answered with the error it ran into. */
  lemma GoneRecordIsThrown(s: State, q: Request)
    requires !Taken(s, q.slot)
    ensures LookOutcome(s, q) == Thrown
  {
    LookupFinds(s, q.slot, s.nextRecord);
  }

  // ----- once the writes have landed -----------------------------------------

  ghost predicate Pending(s: State, w: Write) {
    exists i :: i in s.writes && s.writes[i] == w
  }

  /** A captured response is on the record, or its write is still pending. */
  ghost predicate Delivered(s: State) {
    forall id :: id in s.records && s.records[id].owner in s.requests ==>
      DeliveredTo(s, id, s.records[id], s.requests[s.records[id].owner])
  }

  ghost predicate DeliveredTo(s: State, id: nat, record: Record, owner: Request) {
    |owner.log| == 1 ==>
      || Pending(s, WriteBack(record.owner, id, owner.log[0]))
      || (Succeeded(owner) && record.response == Some(owner.log[0]))
  }

  predicate LosslessRun(s: State, steps: seq<Step>)
    decreases |steps|
  {
    steps != [] ==> Enabled(s, steps[0]) && !steps[0].Lose? && LosslessRun(Apply(s, steps[0]), steps[1..])
  }

  lemma LandKeepsDelivered(s: State, w: nat)
    requires Inv(s) && Delivered(s) && w in s.writes
    ensures Delivered(DoLand(s, w))
  {
    var s' := DoLand(s, w);
    if s.writes[w].record in s.records { WriteHitsOwn(s, w); }
    forall id | id in s'.records && s'.records[id].owner in s'.requests
      ensures DeliveredTo(s', id, s'.records[id], s'.requests[s'.records[id].owner])
    {
      LandDelivers(s, w, id);
    }
  }

  /** A record after a landed write: as it was, or completed by its owner's own write. */
  lemma LandedRecord(s: State, w: nat, id: nat)
    requires RecordsOk(s) && WritesOk(s) && OneOwnerPerRecord(s) && w in s.writes && id in DoLand(s, w).records
    ensures id in s.records && s.records[id].owner in s.requests
      && DoLand(s, w).records[id].owner == s.records[id].owner
    ensures s.writes[w].record != id ==> DoLand(s, w).records[id] == s.records[id]
    ensures s.writes[w].record == id ==>
      (s.writes[w].Complete? && s.writes[w].author == s.records[id].owner
       && DoLand(s, w).records[id].response == Some(s.writes[w].response))
  {
    if s.writes[w].record == id { WriteHitsOwn(s, w); }
  }

  lemma OtherStillPending(s: State, w: nat, other: Write)
    requires w in s.writes && Pending(s, other) && other != s.writes[w]
    ensures Pending(DoLand(s, w), other)
  {
    var i :| i in s.writes && s.writes[i] == other;
    assert DoLand(s, w).writes[i] == other;
  }

  lemma LandDelivers(s: State, w: nat, id: nat)
    requires Inv(s) && Delivered(s) && w in s.writes && id in DoLand(s, w).records
    ensures id in s.records && s.records[id].owner in s.requests
      && DoLand(s, w).records[id].owner == s.records[id].owner
    ensures DeliveredTo(DoLand(s, w), id, DoLand(s, w).records[id], s.requests[s.records[id].owner])
  {
    LandedRecord(s, w, id);
    var q := s.requests[s.records[id].owner];
    if s.writes[w].record == id {
      OwnWriteDelivers(s, w, id, q);
    } else {
      assert DeliveredTo(s, id, s.records[id], q);
      OtherWriteDelivers(s, w, id, q);
    }
  }

  lemma OwnWriteDelivers(s: State, w: nat, id: nat, q: Request)
    requires WritesOk(s) && w in s.writes && id in DoLand(s, w).records && s.writes[w].author in s.requests
    requires s.writes[w].Complete? && q == s.requests[s.writes[w].author]
    requires DoLand(s, w).records[id].response == Some(s.writes[w].response)
    ensures DeliveredTo(DoLand(s, w), id, DoLand(s, w).records[id], q)
  {
    assert WriteOk(s.writes[w], q);
  }

  lemma OtherWriteDelivers(s: State, w: nat, id: nat, q: Request)
    requires w in s.writes && s.writes[w].record != id && id in s.records && DeliveredTo(s, id, s.records[id], q)
    requires id in DoLand(s, w).records && DoLand(s, w).records[id] == s.records[id]
    ensures DeliveredTo(DoLand(s, w), id, s.records[id], q)
  {
    if |q.log| == 1 {
      var back := WriteBack(s.records[id].owner, id, q.log[0]);
      if Pending(s, back) { OtherStillPending(s, w, back); }
    }
  }

  lemma RespondKeepsDelivered(s: State, r: nat, response: Response)
    requires Inv(s) && Delivered(s) && IsHandling(s, r)
    ensures Delivered(DoRespond(s, r, response))
  {
    var s' := DoRespond(s, r, response);
    forall id | id in s'.records && s'.records[id].owner in s'.requests
      ensures DeliveredTo(s', id, s'.records[id], s'.requests[s'.records[id].owner])
    {
      var o := s.records[id].owner;
      assert RecordOk(id, s.records[id], s.requests[o]);
      assert DeliveredTo(s, id, s.records[id], s.requests[o]);
      StillPending(s, s');
      if o == r && !s.requests[r].captured { assert s'.writes[s.nextWrite] == WriteBack(r, id, response); }
    }
  }

  lemma StillPending(s: State, s': State)
    requires forall i :: i in s.writes ==> i in s'.writes && s'.writes[i] == s.writes[i]
    ensures forall w :: Pending(s, w) ==> Pending(s', w)
  {
  }

  lemma OtherKeepsDelivered(s: State, step: Step)
    requires Inv(s) && Delivered(s) && Enabled(s, step) && !step.Land? && !step.Respond? && !step.Lose?
    ensures Delivered(Apply(s, step))
  {
    var s' := Apply(s, step);
    forall id | id in s'.records && s'.records[id].owner in s'.requests
      ensures DeliveredTo(s', id, s'.records[id], s'.requests[s'.records[id].owner])
    {
      OtherDelivers(s, step, id);
    }
  }

  /** A step that neither lands nor captures: a record is as before, with its owner's log, or new with an empty one. */
  lemma OtherLogs(s: State, step: Step, id: nat)
    requires RecordsOk(s) && RequestsOk(s) && Enabled(s, step) && !step.Land? && !step.Respond? && !step.Lose?
    requires id in Apply(s, step).records
    ensures var s' := Apply(s, step); s'.records[id].owner in s'.requests
    ensures var s' := Apply(s, step); var log := s'.requests[s'.records[id].owner].log;
      || log == []
      || (id in s.records && s'.records[id] == s.records[id] && log == s.requests[s.records[id].owner].log)
  {
    if id in s.records { assert RecordOk(id, s.records[id], s.requests[s.records[id].owner]); }
  }

  lemma OtherKeepsWrites(s: State, step: Step)
    requires WritesOk(s) && Enabled(s, step) && !step.Land? && !step.Lose?
    ensures forall i :: i in s.writes ==> i in Apply(s, step).writes && Apply(s, step).writes[i] == s.writes[i]
  {
  }

  lemma OtherDelivers(s: State, step: Step, id: nat)
    requires Inv(s) && Delivered(s) && Enabled(s, step) && !step.Land? && !step.Respond? && !step.Lose?
    requires id in Apply(s, step).records && Apply(s, step).records[id].owner in Apply(s, step).requests
    ensures var s' := Apply(s, step); DeliveredTo(s', id, s'.records[id], s'.requests[s'.records[id].owner])
  {
    OtherLogs(s, step, id);
    OtherKeepsWrites(s, step);
    StillPending(s, Apply(s, step));
    if id in s.records { assert DeliveredTo(s, id, s.records[id], s.requests[s.records[id].owner]); }
  }

  lemma {:induction false} LosslessRunDelivers(s: State, steps: seq<Step>)
    requires Inv(s) && Delivered(s) && LosslessRun(s, steps)
    ensures Possible(s, steps) && Inv(Final(s, steps)) && Delivered(Final(s, steps))
    decreases |steps|
  {
    if steps != [] {
      StepKeeps(s, steps[0]);
      if steps[0].Land? {
        LandKeepsDelivered(s, steps[0].w);
      } else if steps[0].Respond? {
        RespondKeepsDelivered(s, steps[0].r, steps[0].response);
      } else {
        OtherKeepsDelivered(s, steps[0]);
      }
      LosslessRunDelivers(Apply(s, steps[0]), steps[1..]);
    }
  }

  /** What a duplicate is told, said of the request that owns the record. */
  predicate ToldBy(owner: Request, digest: string, outcome: Outcome) {
    if digest != owner.digest then outcome == Refused(422)
    else if owner.log == [] then outcome == Refused(409)
    else Succeeded(owner) && outcome == Replayed(owner.log[0])
  }

  /** In a run that lost no write, once none is pending: a duplicate is told 422 for another digest, 409 while the owner
      runs, and the owner's response once it succeeded; a server error has freed the slot. */
  lemma {:induction false} DuplicateIsToldTheTruth(steps: seq<Step>, r: nat)
    requires LosslessRun(Init, steps)
    ensures Possible(Init, steps)
    ensures var s := Final(Init, steps);
      s.writes == map[] && r in s.requests && Taken(s, s.requests[r].slot) ==>
        exists o :: o in s.requests && s.requests[o].slot == s.requests[r].slot
          && ToldBy(s.requests[o], s.requests[r].digest, LookOutcome(s, s.requests[r]))
  {
    LosslessRunDelivers(Init, steps);
    var s := Final(Init, steps);
    if s.writes == map[] && r in s.requests && Taken(s, s.requests[r].slot) {
      var q := s.requests[r];
      LookupFinds(s, q.slot, s.nextRecord);
      var id := Lookup(s, q.slot, s.nextRecord).value;
      LandedTruth(s, id);
      assert ToldBy(s.requests[s.records[id].owner], q.digest, LookOutcome(s, q));
    }
  }

  lemma LandedTruth(s: State, id: nat)
    requires Inv(s) && Delivered(s) && s.writes == map[] && id in s.records
    ensures var record, owner := s.records[id], s.requests[s.records[id].owner];
      && owner.slot == record.slot && owner.digest == record.digest
      && record.response == (if owner.log == [] then None else Some(owner.log[0]))
      && (owner.log != [] ==> Succeeded(owner))
  {
  }
}
