/** What holds of the idempotency protocol over every interleaving. */
module IdempotencySafety {
  import opened Idempotency

  // ----- the invariant -------------------------------------------------------

  ghost predicate OneRecordPerSlot(s: State) {
    forall a, b :: a in s.records && b in s.records && s.records[a].slot == s.records[b].slot ==> a == b
  }

  ghost predicate OneOwnerPerRecord(s: State) {
    && (forall r :: IsHandling(s, r) ==> s.requests[r].phase.record < s.nextRecord)
    && (forall a, b :: IsHandling(s, a) && IsHandling(s, b) && s.requests[a].phase == s.requests[b].phase ==> a == b)
  }

  /** The flag is up exactly when one response was captured, and only a handling request captures or closes. */
  predicate RequestOk(q: Request) {
    && |q.log| == (if q.captured then 1 else 0)
    && (!q.phase.Handling? ==> !q.captured && !q.closed)
  }

  predicate Succeeded(q: Request) { q.phase.Handling? && |q.log| == 1 && q.log[0].status < 500 }

  predicate Errored(q: Request) { q.phase.Handling? && |q.log| == 1 && q.log[0].status >= 500 }

  predicate InFlight(q: Request) { q.phase.Handling? && q.log == [] }

  /** A record mirrors the request that created it, and holds nothing but what that request captured. */
  predicate RecordOk(id: nat, record: Record, owner: Request) {
    && owner.phase == Handling(id) && owner.slot == record.slot && owner.digest == record.digest
    && (record.response.Some? ==> Succeeded(owner) && owner.log[0] == record.response.value)
  }

  predicate WriteOk(w: Write, author: Request) {
    && author.phase == Handling(w.record)
    && (w.Complete? ==> Succeeded(author) && author.log[0] == w.response)
    && (w.Remove? ==> author.closed || Errored(author))
  }

  /** A captured response below 500 of a request for the same slot with the same digest. */
  predicate Answers(q: Request, slot: Slot, digest: string, response: Response) {
    q.slot == slot && q.digest == digest && Succeeded(q) && q.log[0] == response
  }

  ghost predicate Answered(s: State, slot: Slot, digest: string, response: Response) {
    exists q :: q in s.requests && Answers(s.requests[q], slot, digest, response)
  }

  predicate IsReplay(q: Request) { q.phase.Over? && q.phase.outcome.Replayed? }

  ghost predicate RequestsOk(s: State) {
    && (forall r :: r in s.requests ==> RequestOk(s.requests[r]))
    && (forall r :: r in s.requests && IsReplay(s.requests[r]) ==>
          Answered(s, s.requests[r].slot, s.requests[r].digest, s.requests[r].phase.outcome.response))
  }

  ghost predicate RecordsOk(s: State) {
    forall id :: id in s.records ==>
      id < s.nextRecord && s.records[id].owner in s.requests
        && RecordOk(id, s.records[id], s.requests[s.records[id].owner])
  }

  ghost predicate WritesOk(s: State) {
    forall w :: w in s.writes ==>
      w < s.nextWrite && s.writes[w].author in s.requests && WriteOk(s.writes[w], s.requests[s.writes[w].author])
  }

  ghost predicate Inv(s: State) {
    OneRecordPerSlot(s) && OneOwnerPerRecord(s) && RequestsOk(s) && RecordsOk(s) && WritesOk(s)
  }

  lemma {:induction false} LookupFinds(s: State, slot: Slot, below: nat)
    ensures var found := Lookup(s, slot, below);
      && (found.Some? ==> found.value in s.records && s.records[found.value].slot == slot)
      && (found.None? ==> forall id :: id in s.records && id < below ==> s.records[id].slot != slot)
  {
    if below > 0 { LookupFinds(s, slot, below - 1); }
  }

  // ----- each step keeps it --------------------------------------------------

  /** A request's next version: same slot and digest, a handling request keeps its record and its captures. */
  predicate Grows(q: Request, q': Request) {
    && q'.slot == q.slot && q'.digest == q.digest
    && (q.phase.Handling? ==> q'.phase == q.phase && (q.closed ==> q'.closed) && (q.log != [] ==> q'.log == q.log))
    && (q.phase.Over? ==> q'.phase == q.phase)
  }

  lemma GrowsKeepsRecord(id: nat, record: Record, q: Request, q': Request)
    requires RecordOk(id, record, q) && Grows(q, q')
    ensures RecordOk(id, record, q')
  {
  }

  lemma GrowsKeepsWrite(w: Write, q: Request, q': Request)
    requires WriteOk(w, q) && Grows(q, q')
    ensures WriteOk(w, q')
  {
  }

  /** Replacing one request by a later version of itself. */
  lemma PutKeeps(s: State, r: nat, q: Request)
    requires Inv(s) && r in s.requests && Grows(s.requests[r], q) && RequestOk(q)
    requires q.phase.Handling? ==> q.phase == s.requests[r].phase
    requires IsReplay(q) ==> Answered(s, q.slot, q.digest, q.phase.outcome.response)
    ensures Inv(Put(s, r, q))
  {
    var s' := Put(s, r, q);
    PutKeepsRequests(s, r, q);
    forall id | id in s'.records
      ensures id < s'.nextRecord && s'.records[id].owner in s'.requests
      ensures RecordOk(id, s'.records[id], s'.requests[s'.records[id].owner])
    {
      if s.records[id].owner == r { GrowsKeepsRecord(id, s.records[id], s.requests[r], q); }
    }
    forall w | w in s'.writes
      ensures w < s'.nextWrite && s'.writes[w].author in s'.requests
      ensures WriteOk(s'.writes[w], s'.requests[s'.writes[w].author])
    {
      if s.writes[w].author == r { GrowsKeepsWrite(s.writes[w], s.requests[r], q); }
    }
  }

  lemma PutKeepsRequests(s: State, r: nat, q: Request)
    requires RequestsOk(s) && OneOwnerPerRecord(s) && r in s.requests && Grows(s.requests[r], q) && RequestOk(q)
    requires q.phase.Handling? ==> q.phase == s.requests[r].phase
    requires IsReplay(q) ==> Answered(s, q.slot, q.digest, q.phase.outcome.response)
    ensures RequestsOk(Put(s, r, q)) && OneOwnerPerRecord(Put(s, r, q))
  {
    var s' := Put(s, r, q);
    forall u | u in s'.requests && IsReplay(s'.requests[u])
      ensures Answered(s', s'.requests[u].slot, s'.requests[u].digest, s'.requests[u].phase.outcome.response)
    {
      var v := s'.requests[u];
      AnsweredStays(s, r, q, v.slot, v.digest, v.phase.outcome.response);
    }
  }

  lemma AnsweredStays(s: State, r: nat, q: Request, slot: Slot, digest: string, response: Response)
    requires r in s.requests && Grows(s.requests[r], q) && Answered(s, slot, digest, response)
    ensures Answered(Put(s, r, q), slot, digest, response)
  {
    var a :| a in s.requests && Answers(s.requests[a], slot, digest, response);
    assert Answers(Put(s, r, q).requests[a], slot, digest, response);
  }

  lemma ArriveKeeps(s: State, r: nat, slot: Slot, digest: string)
    requires Inv(s) && r !in s.requests
    ensures Inv(Apply(s, Arrive(r, slot, digest)))
  {
    var s' := Apply(s, Arrive(r, slot, digest));
    forall u | u in s'.requests && IsReplay(s'.requests[u])
      ensures Answered(s', s'.requests[u].slot, s'.requests[u].digest, s'.requests[u].phase.outcome.response)
    {
      var v := s.requests[u];
      var a :| a in s.requests && Answers(s.requests[a], v.slot, v.digest, v.phase.outcome.response);
      assert a in s'.requests && Answers(s'.requests[a], v.slot, v.digest, v.phase.outcome.response);
    }
  }

  lemma CreateKeeps(s: State, r: nat)
    requires Inv(s) && Enabled(s, Create(r))
    ensures Inv(DoCreate(s, r))
  {
    var q := s.requests[r];
    if Taken(s, q.slot) {
      PutKeeps(s, r, q.(phase := Looking));
    } else {
      CreateKeepsRequests(s, r);
      CreateKeepsRecords(s, r);
    }
  }

  lemma CreateKeepsRequests(s: State, r: nat)
    requires Inv(s) && Enabled(s, Create(r)) && !Taken(s, s.requests[r].slot)
    ensures RequestsOk(DoCreate(s, r)) && OneOwnerPerRecord(DoCreate(s, r))
  {
    var s' := DoCreate(s, r);
    forall u | u in s'.requests && IsReplay(s'.requests[u])
      ensures Answered(s', s'.requests[u].slot, s'.requests[u].digest, s'.requests[u].phase.outcome.response)
    {
      var v := s'.requests[u];
      AnsweredStays(s, r, s'.requests[r], v.slot, v.digest, v.phase.outcome.response);
      var a :| a in s'.requests
        && Answers(Put(s, r, s'.requests[r]).requests[a], v.slot, v.digest, v.phase.outcome.response);
    }
  }

  lemma CreateKeepsRecords(s: State, r: nat)
    requires Inv(s) && Enabled(s, Create(r)) && !Taken(s, s.requests[r].slot)
    ensures RecordsOk(DoCreate(s, r)) && WritesOk(DoCreate(s, r)) && OneRecordPerSlot(DoCreate(s, r))
  {
    var s' := DoCreate(s, r);
    forall id | id in s'.records
      ensures id < s'.nextRecord && s'.records[id].owner in s'.requests
      ensures RecordOk(id, s'.records[id], s'.requests[s'.records[id].owner])
    {
      assert id in s.records ==> RecordOk(id, s.records[id], s.requests[s.records[id].owner]);
    }
    forall w | w in s'.writes
      ensures w < s'.nextWrite && s'.writes[w].author in s'.requests
      ensures WriteOk(s'.writes[w], s'.requests[s'.writes[w].author])
    {
      assert WriteOk(s.writes[w], s.requests[s.writes[w].author]);
    }
  }

  lemma LookKeeps(s: State, r: nat)
    requires Inv(s) && Enabled(s, Look(r))
    ensures Inv(Apply(s, Look(r)))
  {
    var q := s.requests[r];
    var q' := q.(phase := Over(LookOutcome(s, q)));
    LookupFinds(s, q.slot, s.nextRecord);
    if IsReplay(q') {
      var record := s.records[Lookup(s, q.slot, s.nextRecord).value];
      assert Answers(s.requests[record.owner], q.slot, q.digest, record.response.value);
    }
    PutKeeps(s, r, q');
  }

  lemma IssueKeeps(s: State, w: Write)
    requires Inv(s) && w.author in s.requests && WriteOk(w, s.requests[w.author])
    ensures Inv(Issue(s, w))
  {
    SameRequests(s, Issue(s, w));
  }

  lemma SameRequests(s: State, s': State)
    requires RequestsOk(s) && s'.requests == s.requests
    ensures RequestsOk(s')
  {
  }

  lemma RespondKeeps(s: State, r: nat, response: Response)
    requires Inv(s) && IsHandling(s, r)
    ensures Inv(DoRespond(s, r, response))
  {
    var q := s.requests[r];
    if !q.captured {
      var q' := q.(captured := true, ended := true, log := q.log + [response]);
      PutKeeps(s, r, q');
      IssueKeeps(Put(s, r, q'), WriteBack(r, q.phase.record, response));
    }
  }

  lemma CloseKeeps(s: State, r: nat)
    requires Inv(s) && Enabled(s, Close(r))
    ensures Inv(DoClose(s, r))
  {
    var q := s.requests[r];
    PutKeeps(s, r, q.(closed := true));
    if !q.captured && !q.ended { IssueKeeps(Put(s, r, q.(closed := true)), Remove(q.phase.record, r)); }
  }

  /** The record a write addresses, when it is still there, was created by the write's author. */
  lemma WriteHitsOwn(s: State, w: nat)
    requires OneOwnerPerRecord(s) && RecordsOk(s) && WritesOk(s) && w in s.writes && s.writes[w].record in s.records
    ensures s.records[s.writes[w].record].owner == s.writes[w].author
  {
  }

  lemma LandKeeps(s: State, w: nat)
    requires Inv(s) && w in s.writes
    ensures Inv(DoLand(s, w))
  {
    var s' := DoLand(s, w);
    var id := s.writes[w].record;
    assert WriteOk(s.writes[w], s.requests[s.writes[w].author]);
    if id in s.records { WriteHitsOwn(s, w); }
    SameRequests(s, s');
    forall i | i in s'.records
      ensures i < s'.nextRecord && s'.records[i].owner in s'.requests
      ensures RecordOk(i, s'.records[i], s'.requests[s'.records[i].owner])
    {
      assert i in s.records && RecordOk(i, s.records[i], s.requests[s.records[i].owner]);
    }
  }

  /** Losing a write, or a record to the TTL monitor. */
  lemma DropKeeps(s: State, s': State)
    requires Inv(s) && s'.requests == s.requests && s'.nextRecord == s.nextRecord && s'.nextWrite == s.nextWrite
    requires forall id :: id in s'.records ==> id in s.records && s'.records[id] == s.records[id]
    requires forall w :: w in s'.writes ==> w in s.writes && s'.writes[w] == s.writes[w]
    ensures Inv(s')
  {
    SameRequests(s, s');
  }

  /** Every step of every interleaving keeps it. */
  lemma StepKeeps(s: State, step: Step)
    requires Inv(s) && Enabled(s, step)
    ensures Inv(Apply(s, step))
  {
    match step
    case Arrive(r, slot, digest) => ArriveKeeps(s, r, slot, digest);
    case Create(r) => CreateKeeps(s, r);
    case CreateFails(r) => PutKeeps(s, r, s.requests[r].(phase := Over(Thrown)));
    case Look(r) => LookKeeps(s, r);
    case Respond(r, response) => RespondKeeps(s, r, response);
    case End(r) => PutKeeps(s, r, s.requests[r].(ended := true));
    case Close(r) => CloseKeeps(s, r);
    case Land(w) => LandKeeps(s, w);
    case _ => DropKeeps(s, Apply(s, step));
  }

  lemma {:induction false} RunKeeps(s: State, steps: seq<Step>)
    requires Inv(s) && Possible(s, steps)
    ensures Inv(Final(s, steps))
    decreases |steps|
  {
    if steps != [] {
      StepKeeps(s, steps[0]);
      RunKeeps(Apply(s, steps[0]), steps[1..]);
    }
  }
}
