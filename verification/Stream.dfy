/** What the server says back on a worker's stream. */
module Stream {
  import opened Jobs
  import opened QueueMachine
  import opened Replies
  import opened Store

  datatype WorkerMessage =
    | Hello(worker: WorkerId)
    | Heartbeat(job: JobId)
    | Completed(job: JobId)
    | FailedWith(job: JobId, error: string)
    | Empty

  /** Why a report was refused. */
  datatype Reason = Fenced | StoreFailed

  datatype ServerMessage =
    | Result(job: JobId, outcome: Outcome, reason: Option<Reason>)
    | Lost(job: JobId)

  /** The step of the queue a message amounts to, if any. */
  function EventFor(w: WorkerId, msg: WorkerMessage, fault: Fault): Option<Event> {
    match msg
    case Completed(job) => Some(Completing(w, job, fault))
    case FailedWith(job, error) => Some(Failing(w, job, error, fault))
    case Heartbeat(job) => Some(Beating(w, job, fault))
    case _ => None
  }

  /** What a message does to the table and what the server says to it. One that reaches the store from the job's
      owner does what it says to that row and to no other: a completion finishes the job, a failure sends it
      back if it has attempts left and to the dead letters otherwise, a heartbeat renews its lease. Any other
      changes nothing. A report is always answered, about its own job, and always frees the worker; a
      heartbeat is answered, and frees it, exactly when the store says the job is not its own. */
  predicate Heard(p: Params, q: Queue, after: Table, w: WorkerId, msg: WorkerMessage, fault: Fault,
                  reply: Option<ServerMessage>, free: bool)
  {
    if msg.Hello? || msg.Empty? then after == q.jobs && reply.None? && !free
    else
      var mine := Owned(q.jobs, msg.job, w);
      var refused := if !fault.NoFault? then Some(StoreFailed) else if !mine then Some(Fenced) else None;
      var more := mine && q.jobs[msg.job].retryCount < q.jobs[msg.job].maxRetries;
      && (if mine && !fault.Dropped? then OneRowChanged(q.jobs, after, msg.job) else after == q.jobs)
      && (mine && !fault.Dropped? ==> Told(p, q.now, w, msg, q.jobs[msg.job], after[msg.job]))
      && match msg
         case Heartbeat(job) =>
           free == (refused == Some(Fenced)) && reply == if free then Some(Lost(job)) else None
         case _ =>
           free && reply == Some(Result(msg.job,
             if refused.Some? then Refused
             else if msg.Completed? then Accepted
             else if more then Retrying
             else DeadLettered, refused))
  }

  predicate OneRowChanged(before: Table, after: Table, id: JobId) {
    after.Keys == before.Keys && id in before && forall other <- before :: other != id ==> after[other] == before[other]
  }

  /** The owner's message has been carried out on the row. */
  predicate Told(p: Params, now: Time, w: WorkerId, msg: WorkerMessage, r: Row, r': Row) {
    match msg
    case Completed(_) => r'.state.Done? && r'.doneAt == Some(now) && r'.retryCount == r.retryCount
    case FailedWith(_, error) =>
      && r'.retryCount == r.retryCount + 1 && r'.lastError == error
      && (if r.retryCount < r.maxRetries
          then r'.state.Pending? && r'.nextRunAt == Some(now + p.base * Pow2(r.retryCount))
          else r'.state.Failed? && r'.doneAt == Some(now))
    case Heartbeat(_) => Owns(r', w) && r'.lease == Some(now + p.leaseFor) && r'.retryCount == r.retryCount
    case _ => true
  }

  /** Applies a message and answers it; `free` says the worker goes back in line. The answer to a report is the
      verdict on that step of the queue machine. */
  method Answer(store: PostgresStore, p: Params, w: WorkerId, msg: WorkerMessage, fault: Fault)
    returns (reply: Option<ServerMessage>, free: bool)
    modifies store`clock, store`jobs
    ensures store.clock >= old(store.clock)
    ensures Heard(p, Queue(store.clock, old(store.jobs), 0), store.jobs, w, msg, fault, reply, free)
    ensures msg.Completed? && fault.NoFault? && Owned(old(store.jobs), msg.job, w) ==>
      store.jobs[msg.job].state.Done? && reply == Some(Result(msg.job, Accepted, None))
    ensures msg.FailedWith? && fault.NoFault? && Owned(old(store.jobs), msg.job, w) ==>
      var r, r' := old(store.jobs)[msg.job], store.jobs[msg.job];
      && r'.retryCount == r.retryCount + 1 && r'.lastError == msg.error
      && (if r.retryCount < r.maxRetries
          then r'.state.Pending? && reply == Some(Result(msg.job, Retrying, None))
          else r'.state.Failed? && reply == Some(Result(msg.job, DeadLettered, None)))
    ensures
      var q, e := Queue(store.clock, old(store.jobs), 0), EventFor(w, msg, fault);
      && store.jobs == (if e.Some? then Next(p, q, e.value).jobs else q.jobs)
      && (e.Some? && IsReport(e.value) ==> reply.Some? && reply.value.Result? && reply.value.outcome == Verdict(q, e.value))
  {
    match msg
    case Heartbeat(job) =>
      var r := store.HeartbeatJob(job, w, p.leaseFor, fault);
      if !r.Ok? || r.value { return None, false; }
      return Some(Lost(job)), true;
    case Completed(job) =>
      var r := store.Complete(job, w, fault);
      if !r.Ok? { return Some(Result(job, Refused, Some(if r.LeaseLost? then Fenced else StoreFailed))), true; }
      return Some(Result(job, Accepted, None)), true;
    case FailedWith(job, error) =>
      var r := store.FailJob(job, w, error, p.base, fault);
      if !r.Ok? { return Some(Result(job, Refused, Some(if r.LeaseLost? then Fenced else StoreFailed))), true; }
      return Some(Result(job, if r.value then Retrying else DeadLettered, None)), true;
    case _ =>
      return None, false;
  }
}
