/** The idempotency-key middleware as a concurrent protocol: every request is a small program over the shared
    records, and its steps interleave with those of all others, with client closes and with the TTL monitor. */
module Idempotency {
  import opened Options

  /** What the unique index covers. */
  datatype Slot = Slot(key: string, user: string, endpoint: string)

  datatype Response = Response(status: int, body: string)

  /** A stored record; `digest` stands for the hash of the request body, `response` is None while in progress. */
  datatype Record = Record(slot: Slot, digest: string, owner: nat, response: Option<Response>)

  datatype Outcome = Replayed(response: Response) | Refused(status: int) | Thrown

  datatype Phase = Creating | Looking | Handling(record: nat) | Over(outcome: Outcome)

  /** One request and the closure of its middleware: `captured` is its flag of that name, `ended` is the
      response's `writableEnded`, and `log` is history, the responses `captureResponse` acted on. */
  datatype Request = Request(
    slot: Slot,
    digest: string,
    phase: Phase,
    captured: bool,
    ended: bool,
    closed: bool,
    log: seq<Response>)

  /** A write that was issued without being awaited: it lands later, in any order, or is lost. */
  datatype Write = Complete(record: nat, author: nat, response: Response) | Remove(record: nat, author: nat)

  datatype State = State(
    records: map<nat, Record>,
    nextRecord: nat,
    requests: map<nat, Request>,
    writes: map<nat, Write>,
    nextWrite: nat)

  const Init := State(map[], 0, map[], map[], 0)

  datatype Step =
    | Arrive(r: nat, slot: Slot, digest: string)
    | Create(r: nat)
    | CreateFails(r: nat)
    | Look(r: nat)
    | Respond(r: nat, response: Response)
    | End(r: nat)
    | Close(r: nat)
    | Land(w: nat)
    | Lose(w: nat)
    | Expire(id: nat)

  predicate Taken(s: State, slot: Slot) {
    exists id :: id in s.records && s.records[id].slot == slot
  }

  predicate IsHandling(s: State, r: nat) { r in s.requests && s.requests[r].phase.Handling? }

  predicate Enabled(s: State, step: Step) {
    match step
    case Arrive(r, _, _) => r !in s.requests
    case Create(r) => r in s.requests && s.requests[r].phase.Creating?
    case CreateFails(r) => r in s.requests && s.requests[r].phase.Creating?
    case Look(r) => r in s.requests && s.requests[r].phase.Looking?
    case Respond(r, _) => IsHandling(s, r)
    case End(r) => IsHandling(s, r)
    case Close(r) => IsHandling(s, r) && !s.requests[r].closed
    case Land(w) => w in s.writes
    case Lose(w) => w in s.writes
    case Expire(id) => id in s.records
  }

  function Put(s: State, r: nat, q: Request): State { s.(requests := s.requests[r := q]) }

  /** The insert under the unique index: a taken slot is error 11000. */
  function DoCreate(s: State, r: nat): State
    requires r in s.requests
  {
    var q := s.requests[r];
    if Taken(s, q.slot) then Put(s, r, q.(phase := Looking))
    else Put(s, r, q.(phase := Handling(s.nextRecord)))
         .(records := s.records[s.nextRecord := Record(q.slot, q.digest, r, None)], nextRecord := s.nextRecord + 1)
  }

  /** What a duplicate is told about the record it ran into. */
  function Verdict(record: Record, digest: string): Outcome {
    if record.digest != digest then Refused(422)
    else match record.response
         case None => Refused(409)
         case Some(response) => Replayed(response)
  }

  /** `findOne` on the slot. */
  function Lookup(s: State, slot: Slot, below: nat): Option<nat> {
    if below == 0 then None
    else if below - 1 in s.records && s.records[below - 1].slot == slot then Some(below - 1)
    else Lookup(s, slot, below - 1)
  }

  /** The duplicate error is thrown on when the record is gone meanwhile. */
  function LookOutcome(s: State, q: Request): Outcome {
    match Lookup(s, q.slot, s.nextRecord)
    case None => Thrown
    case Some(id) => if id in s.records then Verdict(s.records[id], q.digest) else Thrown
  }

  function Issue(s: State, w: Write): State {
    s.(writes := s.writes[s.nextWrite := w], nextWrite := s.nextWrite + 1)
  }

  /** What `captureResponse` does with the record of request `r`. */
  function WriteBack(r: nat, record: nat, response: Response): Write {
    if response.status >= 500 then Remove(record, r) else Complete(record, r, response)
  }

  /** A `json` or `send` of the response: the first one is captured, later ones are not. */
  function DoRespond(s: State, r: nat, response: Response): State
    requires IsHandling(s, r)
  {
    var q := s.requests[r];
    if q.captured then s
    else Issue(Put(s, r, q.(captured := true, ended := true, log := q.log + [response])),
               WriteBack(r, q.phase.record, response))
  }

  /** The close handler gives the slot up only when nothing was captured and the response is not ended. */
  function DoClose(s: State, r: nat): State
    requires IsHandling(s, r)
  {
    var q := s.requests[r];
    var s' := Put(s, r, q.(closed := true));
    if q.captured || q.ended then s' else Issue(s', Remove(q.phase.record, r))
  }

  /** `updateOne` and `deleteOne` by `_id`: nothing happens when the record is gone. */
  function DoLand(s: State, w: nat): State
    requires w in s.writes
  {
    var s' := s.(writes := s.writes - {w});
    match s.writes[w]
    case Complete(id, _, response) =>
      if id in s.records then s'.(records := s.records[id := s.records[id].(response := Some(response))]) else s'
    case Remove(id, _) => s'.(records := s.records - {id})
  }

  function Apply(s: State, step: Step): State
    requires Enabled(s, step)
  {
    match step
    case Arrive(r, slot, digest) => Put(s, r, Request(slot, digest, Creating, false, false, false, []))
    case Create(r) => DoCreate(s, r)
    case CreateFails(r) => Put(s, r, s.requests[r].(phase := Over(Thrown)))
    case Look(r) => Put(s, r, s.requests[r].(phase := Over(LookOutcome(s, s.requests[r]))))
    case Respond(r, response) => DoRespond(s, r, response)
    case End(r) => Put(s, r, s.requests[r].(ended := true))
    case Close(r) => DoClose(s, r)
    case Land(w) => DoLand(s, w)
    case Lose(w) => s.(writes := s.writes - {w})
    case Expire(id) => s.(records := s.records - {id})
  }

  predicate Possible(s: State, steps: seq<Step>)
    decreases |steps|
  {
    steps != [] ==> Enabled(s, steps[0]) && Possible(Apply(s, steps[0]), steps[1..])
  }

  function Final(s: State, steps: seq<Step>): State
    requires Possible(s, steps)
    decreases |steps|
  {
    if steps == [] then s else Final(Apply(s, steps[0]), steps[1..])
  }
}
