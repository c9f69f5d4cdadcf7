/** The durable job queue as a transition system: the stored rows, the handlers in flight in
    the one worker process, and the module flags, changed by one step at a time. */
module JobQueue {
  import opened Options
  import opened Backoff

  datatype Status = Queued | Active | Retrying | Completed | Dead

  datatype Job = Job(
    name: string,
    payload: string,
    key: string,
    status: Status,
    attemptsMade: nat,
    maxAttempts: int,
    backoffMs: nat,
    runAt: int,
    lockedAt: Option<int>,
    createdAt: int)

  /** A handler in flight, with the row as `processNext` got it back. */
  datatype Claim = Claim(id: nat, doc: Job)

  /** The second argument of a handler. */
  datatype Context = Context(attempt: nat, maxAttempts: int)

  /** Rows by `_id` and handlers by ticket, both numbered in order of creation. The last two fields are history:
      the contexts each row's handler was called with, and how often the row was requeued by `startJobs`. */
  datatype State = State(
    jobs: map<nat, Job>,
    nextId: nat,
    claims: map<nat, Claim>,
    nextTicket: nat,
    accepting: bool,
    polling: bool,
    now: int,
    calls: map<nat, seq<Context>>,
    recoveries: map<nat, nat>)

  const Init := State(map[], 0, map[], 0, true, false, 0, map[], map[])

  datatype Step =
    | Enqueue(name: string, payload: string, attempts: int, backoffMs: nat, key: string)
    | Poll(pick: nat)
    | Succeed(ticket: nat)
    | Fail(ticket: nat, jitter: real)
    | Abandon(ticket: nat)
    | Crash
    | Start
    | Stop
    | Tick(ms: nat)

  predicate Waiting(j: Job) { j.status.Queued? || j.status.Retrying? }

  predicate Terminal(j: Job) { j.status.Completed? || j.status.Dead? }

  predicate Due(s: State, id: nat) {
    id in s.jobs && Waiting(s.jobs[id]) && s.jobs[id].runAt <= s.now
  }

  /** The rows the claim query may return: due, and none due is earlier. */
  predicate EarliestDue(s: State, id: nat) {
    Due(s, id) && forall other :: other in s.jobs && Due(s, other) ==> s.jobs[id].runAt <= s.jobs[other].runAt
  }

  predicate HasKey(s: State, key: string) {
    exists id :: id in s.jobs && s.jobs[id].key == key
  }

  predicate Enabled(s: State, step: Step) {
    match step
    case Poll(pick) => s.polling && EarliestDue(s, pick)
    case Succeed(t) => t in s.claims
    case Fail(t, jitter) => t in s.claims && 0.0 <= jitter < 1.0
    case Abandon(t) => t in s.claims
    case _ => true
  }

  // ----- the operations ------------------------------------------------------

  /** `opts.attempts || 1` and `opts.backoffMs || 1000`. */
  function NewJob(name: string, payload: string, attempts: int, backoffMs: nat, key: string, now: int): Job {
    Job(name, payload, key, Queued, 0, if attempts == 0 then 1 else attempts,
        if backoffMs == 0 then 1000 else backoffMs, now, None, now)
  }

  /** The upsert on the idempotency key; a queue that is shutting down throws instead. */
  function DoEnqueue(s: State, name: string, payload: string, attempts: int, backoffMs: nat, key: string): State {
    if !s.accepting || HasKey(s, key) then s
    else s.(jobs := s.jobs[s.nextId := NewJob(name, payload, attempts, backoffMs, key, s.now)],
            nextId := s.nextId + 1,
            calls := s.calls[s.nextId := []],
            recoveries := s.recoveries[s.nextId := 0])
  }

  function Claimed(j: Job, now: int): Job {
    j.(status := Active, attemptsMade := j.attemptsMade + 1, lockedAt := Some(now))
  }

  /** The claim, and the call of the handler with the claimed row's attempt number. */
  function DoPoll(s: State, pick: nat): State
    requires pick in s.jobs
  {
    var doc := Claimed(s.jobs[pick], s.now);
    s.(jobs := s.jobs[pick := doc],
       claims := s.claims[s.nextTicket := Claim(pick, doc)],
       nextTicket := s.nextTicket + 1,
       calls := s.calls[pick := CallsOf(s, pick) + [Context(doc.attemptsMade, doc.maxAttempts)]])
  }

  function CallsOf(s: State, id: nat): seq<Context> {
    if id in s.calls then s.calls[id] else []
  }

  function RecoveriesOf(s: State, id: nat): nat {
    if id in s.recoveries then s.recoveries[id] else 0
  }

  /** `updateOne({ _id })`: nothing happens when the row is gone. */
  function Update(jobs: map<nat, Job>, id: nat, f: Job -> Job): map<nat, Job> {
    if id in jobs then jobs[id := f(jobs[id])] else jobs
  }

  function Finished(j: Job): Job { j.(status := Completed, lockedAt := None) }

  /** Dead once the claimed row's attempts are used up, otherwise waiting again after the backoff. */
  function Failed(doc: Job, now: int, jitter: real): Job -> Job
    requires 0.0 <= jitter < 1.0
  {
    (j: Job) =>
      if doc.attemptsMade >= doc.maxAttempts then j.(status := Dead, lockedAt := None)
      else j.(status := Retrying, runAt := now + RetryDelay(doc.backoffMs, doc.attemptsMade, jitter), lockedAt := None)
  }

  function Settle(s: State, t: nat, f: Job -> Job): State
    requires t in s.claims
  {
    s.(jobs := Update(s.jobs, s.claims[t].id, f), claims := s.claims - {t})
  }

  function Requeued(j: Job, now: int): Job {
    if j.status.Active? then j.(status := Retrying, runAt := now, lockedAt := None) else j
  }

  /** `startJobs`: a second call while the poll timer runs does nothing. */
  function DoStart(s: State): State {
    if s.polling then s
    else s.(accepting := true, polling := true,
            jobs := map id | id in s.jobs :: Requeued(s.jobs[id], s.now),
            recoveries := map id | id in s.jobs ::
              RecoveriesOf(s, id) + if s.jobs[id].status.Active? then 1 else 0)
  }

  function Apply(s: State, step: Step): State
    requires Enabled(s, step)
  {
    match step
    case Enqueue(name, payload, attempts, backoffMs, key) => DoEnqueue(s, name, payload, attempts, backoffMs, key)
    case Poll(pick) => DoPoll(s, pick)
    case Succeed(t) => Settle(s, t, Finished)
    case Fail(t, jitter) => Settle(s, t, Failed(s.claims[t].doc, s.now, jitter))
    case Abandon(t) => s.(claims := s.claims - {t})
    case Crash => s.(claims := map[], accepting := true, polling := false)
    case Start => DoStart(s)
    case Stop => s.(accepting := false, polling := false)
    case Tick(ms) => s.(now := s.now + ms)
  }

  // ----- runs ----------------------------------------------------------------

  /** One worker process: `startJobs` is not called while handlers are in flight, only at boot
      (or again while the timer runs, when it does nothing). */
  predicate OneWorker(s: State, step: Step) {
    step.Start? ==> s.polling || s.claims == map[]
  }

  predicate Legal(s: State, steps: seq<Step>)
    decreases |steps|
  {
    steps != [] ==>
      && Enabled(s, steps[0]) && OneWorker(s, steps[0])
      && Legal(Apply(s, steps[0]), steps[1..])
  }

  function Final(s: State, steps: seq<Step>): State
    requires Legal(s, steps)
    decreases |steps|
  {
    if steps == [] then s else Final(Apply(s, steps[0]), steps[1..])
  }
}
