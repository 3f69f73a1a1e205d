/** The retry timer's promise, on one state at a time: while somebody waits for work, no pending job is left
    without a push to come. */
module Timer {
  import opened Jobs
  import opened QueueMachine
  import opened Line

  const MIN_ARM: Time := 100_000_000

  /** The timer is set, has not come due yet, and fires no later than `due` (or MIN_ARM from now). A timer that
      has fired is no longer set: `None`. */
  predicate FiresFor(timer: Option<Time>, now: Time, due: Time) {
    timer.Some? && now <= timer.value <= Max(now + MIN_ARM, due)
  }

  /** If somebody waits and a job is pending, the timer fires for each pending job. */
  predicate Covered(line: seq<Waiter>, jobs: Table, timer: Option<Time>, now: Time) {
    line != [] && HasPending(jobs) ==>
      timer.Some? && now <= timer.value && forall t <- DueTimes(jobs) :: FiresFor(timer, now, t)
  }

  /** Set, and its moment has passed: the push it stands for has not begun yet. */
  predicate Overdue(timer: Option<Time>, now: Time) { timer.Some? && timer.value < now }

  /** The passing of time ends the cover exactly when it takes the clock past the timer. */
  lemma TimeKeepsCoverIff(line: seq<Waiter>, jobs: Table, timer: Option<Time>, now: Time, later: Time)
    requires Covered(line, jobs, timer, now) && now <= later
    ensures Covered(line, jobs, timer, later) <==> line == [] || !HasPending(jobs) || !Overdue(timer, later)
  {}

  /** What is pending after was pending before. */
  lemma SamePendingKeepsCover(line: seq<Waiter>, jobs: Table, after: Table, timer: Option<Time>, now: Time)
    requires Covered(line, jobs, timer, now)
    requires forall id <- after | after[id].state.Pending? :: id in jobs && jobs[id] == after[id]
    ensures Covered(line, after, timer, now)
  {
    assert DueTimes(after) <= DueTimes(jobs);
  }

  /** Claims, completions, heartbeats and elections, by anybody anywhere, only take jobs out of the timer's care. */
  lemma TakingWorkKeepsCover(p: Params, q: Queue, e: Event, line: seq<Waiter>, timer: Option<Time>)
    requires Covered(line, q.jobs, timer, q.now)
    requires e.Claiming? || e.Completing? || e.Beating? || e.Winning?
    ensures Covered(line, Next(p, q, e).jobs, timer, q.now)
  {
    SamePendingKeepsCover(line, q.jobs, Next(p, q, e).jobs, timer, q.now);
  }

  /** One row turning pending, due at `due`, leaves the promise kept exactly when nobody waits or the timer
      happens to fire for it anyway. */
  lemma OneMorePendingIff(line: seq<Waiter>, jobs: Table, id: JobId, r: Row, due: Time, timer: Option<Time>, now: Time)
    requires Covered(line, jobs, timer, now) && (id in jobs ==> !jobs[id].state.Pending?)
    requires r.state.Pending? && r.nextRunAt == Some(due)
    ensures Covered(line, jobs[id := r], timer, now) <==> line == [] || FiresFor(timer, now, due)
  {
    var after := jobs[id := r];
    assert after[id].state.Pending?;
    assert due in DueTimes(after);
    forall t <- DueTimes(after) ensures t == due || t in DueTimes(jobs) {
      var x :| x in after && after[x].state.Pending? && after[x].nextRunAt == Some(t);
      if x != id { assert jobs[x] == after[x]; }
    }
    if line != [] && FiresFor(timer, now, due) {
      forall t <- DueTimes(after) ensures FiresFor(timer, now, t) {
        if t != due {
          var x :| x in jobs && jobs[x].state.Pending? && jobs[x].nextRunAt == Some(t);
          assert HasPending(jobs);
        }
      }
    }
  }

  /** A failure report that no push follows: the retry sleeps in the timer's care exactly when the report
      sent nothing back, nobody waits, or the timer fires for it anyway. */
  lemma UnpushedRetryIff(p: Params, q: Queue, e: Event, line: seq<Waiter>, timer: Option<Time>)
    requires Covered(line, q.jobs, timer, q.now) && e.Failing? && !e.fault.Dropped?
    ensures
      Covered(line, Next(p, q, e).jobs, timer, q.now) <==>
        || !(Owned(q.jobs, e.id, e.worker) && CanRetry(q.jobs[e.id]))
        || line == []
        || FiresFor(timer, q.now, q.now + p.base * Pow2(q.jobs[e.id].retryCount))
  {
    if Owned(q.jobs, e.id, e.worker) {
      var r := FailRow(q.jobs[e.id], e.error, p.base, q.now);
      assert Next(p, q, e).jobs == q.jobs[e.id := r];
      if CanRetry(q.jobs[e.id]) {
        OneMorePendingIff(line, q.jobs, e.id, r, q.now + p.base * Pow2(q.jobs[e.id].retryCount), timer, q.now);
      } else {
        SamePendingKeepsCover(line, q.jobs, q.jobs[e.id := r], timer, q.now);
      }
    }
  }

  /** A job enqueued where the push does not reach this dispatcher. */
  lemma UnpushedEnqueueIff(p: Params, q: Queue, e: Event, line: seq<Waiter>, timer: Option<Time>)
    requires Covered(line, q.jobs, timer, q.now) && e.Create? && e.cid !in q.jobs
    ensures
      Covered(line, Next(p, q, e).jobs, timer, q.now) <==>
        !ParseStatus(e.status).Pending? || line == [] || FiresFor(timer, q.now, q.now)
  {
    var r := NewRow(e.status, e.maxRetries, e.error, q.now);
    if ParseStatus(e.status).Pending? {
      OneMorePendingIff(line, q.jobs, e.cid, r, q.now, timer, q.now);
    } else {
      SamePendingKeepsCover(line, q.jobs, q.jobs[e.cid := r], timer, q.now);
    }
  }

  /** Some released row has an attempt left. */
  predicate ReturnsSome(jobs: Table, term: int, now: Time) {
    exists id <- Released(jobs, term, now) :: CanRetry(jobs[id])
  }

  /** The reaper never pushes: a sweep keeps the promise exactly when it returned nothing to the queue,
      nobody waits, or the timer is about to fire anyway. */
  lemma SweepKeepsCoverIff(p: Params, q: Queue, term: int, line: seq<Waiter>, timer: Option<Time>)
    requires Covered(line, q.jobs, timer, q.now)
    ensures
      Covered(line, Next(p, q, Sweeping(term)).jobs, timer, q.now) <==>
        !ReturnsSome(q.jobs, term, q.now) || line == [] || FiresFor(timer, q.now, q.now)
  {
    var after := Next(p, q, Sweeping(term)).jobs;
    if !ReturnsSome(q.jobs, term, q.now) {
      forall id <- after | after[id].state.Pending? ensures after[id] == q.jobs[id] {
        assert id in Released(q.jobs, term, q.now) ==> !CanRetry(q.jobs[id]);
      }
      SamePendingKeepsCover(line, q.jobs, after, timer, q.now);
      return;
    }
    var x :| x in Released(q.jobs, term, q.now) && CanRetry(q.jobs[x]);
    assert after[x].state.Pending? && after[x].nextRunAt == Some(q.now);
    assert q.now in DueTimes(after);
    if line != [] && FiresFor(timer, q.now, q.now) {
      forall t <- DueTimes(after) ensures FiresFor(timer, q.now, t) {
        var y :| y in after && after[y].state.Pending? && after[y].nextRunAt == Some(t);
        if y !in Released(q.jobs, term, q.now) {
          assert q.jobs[y] == after[y];
          assert HasPending(q.jobs) && t in DueTimes(q.jobs);
        }
      }
    }
  }

  /** When the rows an event turns pending will be due, if it turns any; they are all due together. */
  function Arrival(p: Params, q: Queue, e: Event): Option<Time> {
    match e
    case Create(id, status, _, _) => if id !in q.jobs && ParseStatus(status).Pending? then Some(q.now) else None
    case Failing(w, id, _, f) =>
      if !f.Dropped? && Owned(q.jobs, id, w) && CanRetry(q.jobs[id])
      then Some(q.now + p.base * Pow2(q.jobs[id].retryCount)) else None
    case Sweeping(term) => if ReturnsSome(q.jobs, term, q.now) then Some(q.now) else None
    case _ => None
  }

  /** Every statement there is, by anybody: it keeps the cover exactly when nothing arrived, nobody waits, or
      the timer fires for the arrivals anyway. */
  lemma EventKeepsCoverIff(p: Params, q: Queue, e: Event, line: seq<Waiter>, timer: Option<Time>)
    requires TableInv(q.jobs) && !e.Tick? && Covered(line, q.jobs, timer, q.now)
    ensures
      Covered(line, Next(p, q, e).jobs, timer, q.now) <==>
        Arrival(p, q, e).None? || line == [] || FiresFor(timer, q.now, Arrival(p, q, e).value)
  {
    match e
    case Create(id, _, _, _) => if id !in q.jobs { UnpushedEnqueueIff(p, q, e, line, timer); }
    case Failing(_, _, _, f) => if !f.Dropped? { UnpushedRetryIff(p, q, e, line, timer); }
    case Sweeping(term) => SweepKeepsCoverIff(p, q, term, line, timer);
    case Restart => MigrateIsIdentity(q.jobs);
    case _ => TakingWorkKeepsCover(p, q, e, line, timer);
  }
}
