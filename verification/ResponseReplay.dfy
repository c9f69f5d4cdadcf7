/** From an answer on the wire to its replay: what one `json` or `send` leaves behind for later requests of its slot. */
module ResponseReplay {
  import opened Options
  import opened Idempotency
  import opened IdempotencySafety
  import Gate = ResponseGate

  /** What is stored of a capture: the status, and the value as it prints. */
  function Stored(c: Gate.Codec, capture: Gate.Capture): Response {
    Response(capture.status, Gate.ReplayText(c, capture.body))
  }

  /** The record of request `a` once its answer's write has landed, nothing else happening in between. */
  function Answer(s: State, a: nat, response: Response): State
    requires IsHandling(s, a) && !s.requests[a].captured
  {
    DoLand(DoRespond(s, a, response), s.nextWrite)
  }

  ghost predicate Answering(s: State, a: nat) {
    Inv(s) && IsHandling(s, a) && !s.requests[a].captured && s.requests[a].phase.record in s.records
  }

  lemma AnswerLands(s: State, a: nat, response: Response)
    requires Answering(s, a)
    ensures var id, s' := s.requests[a].phase.record, Answer(s, a, response);
      && (response.status >= 500 ==> s'.records == s.records - {id})
      && (response.status < 500 ==> s'.records == s.records[id := s.records[id].(response := Some(response))])
      && s.records[id].slot == s.requests[a].slot && s.records[id].digest == s.requests[a].digest
      && s'.nextRecord == s.nextRecord && id < s.nextRecord && OneRecordPerSlot(s)
  {
    var id := s.requests[a].phase.record;
    assert RecordOk(id, s.records[id], s.requests[s.records[id].owner]);
  }

  /** A duplicate that asks after the answer landed: `q` asks for the slot of `a`. */
  lemma {:induction false} TheRecordIsFound(s: State, id: nat, slot: Slot)
    requires OneRecordPerSlot(s) && id in s.records && id < s.nextRecord && s.records[id].slot == slot
    requires forall i :: i in s.records ==> i < s.nextRecord
    ensures Lookup(s, slot, s.nextRecord) == Some(id)
  {
    LookupFinds(s, slot, s.nextRecord);
  }

  /** An answer whose status is at least 500 frees its slot; after any other, a duplicate with the same digest is
      replayed the same status, and the same text if and only if the answer was a value, or a string some value prints
      as. */
  lemma {:induction false} ReplayTellsTheAnswer(s: State, a: nat, c: Gate.Codec, capture: Gate.Capture, b: Gate.Body,
                                                q: Request)
    requires Answering(s, a) && Gate.RoundTrips(c) && capture.body == Gate.Parsed(c, b)
    requires q.slot == s.requests[a].slot
    ensures var s', told := Answer(s, a, Stored(c, capture)), LookOutcome(Answer(s, a, Stored(c, capture)), q);
      && (Taken(s', q.slot) <==> capture.status < 500)
      && (capture.status >= 500 ==> told == Thrown)
      && (capture.status < 500 && q.digest != s.requests[a].digest ==> told == Refused(422))
      && (capture.status < 500 && q.digest == s.requests[a].digest ==>
            && told.Replayed? && told.response.status == capture.status
            && (told.response.body == Gate.SentText(c, b) <==> b.Data? || exists v :: b.text == c.stringify(v)))
  {
    var s' := Answer(s, a, Stored(c, capture));
    var id := s.requests[a].phase.record;
    AnswerLands(s, a, Stored(c, capture));
    Gate.ReplayIsVerbatimExactlyWhen(c, b);
    LookupFinds(s', q.slot, s'.nextRecord);
    if capture.status < 500 {
      assert s'.records[id].slot == q.slot;
      TheRecordIsFound(s', id, q.slot);
    }
  }
}
