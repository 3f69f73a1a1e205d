/** The queue a client thinks it is using: no servers, no terms, no SQL, no NULLs.
    Every run of the real machine is a run of this one. */
module SimpleQueue {
  import opened Jobs
  import opened QueueMachine

  /** `left` counts the retries still allowed. `Parked` is a row whose status text nobody schedules. */
  datatype Phase =
    | Waiting(left: nat)
    | Running(worker: WorkerId, left: nat, until: Time)
    | Finished
    | Dead
    | Parked

  datatype Spec = Spec(now: Time, jobs: map<JobId, Phase>)

  datatype Action =
    | Skip
    | Pass(to: Time)
    | Add(id: JobId, phase: Phase)
    | Start(id: JobId, w: WorkerId, until: Time)
    | Extend(id: JobId, w: WorkerId, until: Time)
    | Finish(id: JobId, w: WorkerId)
    | GiveUp(id: JobId, w: WorkerId)
    | Expire(ids: set<JobId>)

  function GivenBack(ph: Phase): Phase
    requires ph.Running?
  {
    if ph.left == 0 then Dead else Waiting(ph.left - 1)
  }

  predicate RunBy(a: Spec, id: JobId, w: WorkerId) {
    id in a.jobs && a.jobs[id].Running? && a.jobs[id].worker == w
  }

  predicate Lapsed(a: Spec, id: JobId) {
    id in a.jobs && a.jobs[id].Running? && a.jobs[id].until < a.now
  }

  /** The whole specification: only the named owner, or the end of its lease, ends a run. */
  predicate Allows(a: Spec, act: Action, b: Spec) {
    match act
    case Skip => b == a
    case Pass(to) => a.now <= to && b == a.(now := to)
    case Add(id, ph) => id !in a.jobs && (ph.Waiting? || ph.Parked?) && b == a.(jobs := a.jobs[id := ph])
    case Start(id, w, until) =>
      id in a.jobs && a.jobs[id].Waiting? && b == a.(jobs := a.jobs[id := Running(w, a.jobs[id].left, until)])
    case Extend(id, w, until) =>
      RunBy(a, id, w) && b == a.(jobs := a.jobs[id := a.jobs[id].(until := until)])
    case Finish(id, w) => RunBy(a, id, w) && b == a.(jobs := a.jobs[id := Finished])
    case GiveUp(id, w) => RunBy(a, id, w) && b == a.(jobs := a.jobs[id := GivenBack(a.jobs[id])])
    case Expire(ids) =>
      && (forall id <- ids :: Lapsed(a, id))
      && b == a.(jobs := map id | id in a.jobs :: if id in ids then GivenBack(a.jobs[id]) else a.jobs[id])
  }

  // ---------- Abstraction ----------

  function PhaseOf(r: Row): Phase
    requires RowInv(r)
  {
    match r.state
    case Pending => Waiting(Budget(r) - r.retryCount)
    case Processing => Running(r.worker, Budget(r) - r.retryCount, r.lease.value)
    case Done => Finished
    case Failed => Dead
    case Other(_) => Parked
  }

  function SpecOf(q: Queue): Spec
    requires TableInv(q.jobs)
  {
    Spec(q.now, map id | id in q.jobs :: PhaseOf(q.jobs[id]))
  }

  function ActionOf(p: Params, q: Queue, e: Event): Action
    requires e.Create? && e.cid !in q.jobs ==> CleanStatus(e.status)
  {
    match e
    case Tick(to) => Pass(to)
    case Create(id, status, m, error) =>
      if id in q.jobs then Skip
      else NewRowInvIff(status, m, error, q.now); Add(id, PhaseOf(NewRow(status, m, error, q.now)))
    case Claiming(_, w, id) => Start(id, w, q.now + p.leaseFor)
    case Completing(w, id, f) => if !f.Dropped? && Owned(q.jobs, id, w) then Finish(id, w) else Skip
    case Failing(w, id, _, f) => if !f.Dropped? && Owned(q.jobs, id, w) then GiveUp(id, w) else Skip
    case Beating(w, id, f) => if !f.Dropped? && Owned(q.jobs, id, w) then Extend(id, w, q.now + p.leaseFor) else Skip
    case Sweeping(term) => Expire(Released(q.jobs, term, q.now))
    case Winning(_) => Skip
    case Restart => Skip
  }

  lemma UpdateSimulates(q: Queue, id: JobId, r: Row)
    requires TableInv(q.jobs) && RowInv(r)
    ensures TableInv(q.jobs[id := r])
    ensures SpecOf(q.(jobs := q.jobs[id := r])) == SpecOf(q).(jobs := SpecOf(q).jobs[id := PhaseOf(r)])
  {
    assert SpecOf(q.(jobs := q.jobs[id := r])).jobs == SpecOf(q).jobs[id := PhaseOf(r)];
  }

  /** A reported failure and a stall are the same thing to the specification. */
  lemma GiveBackSimulates(r: Row, error: string, next: Option<Time>, now: Time)
    requires RowInv(r) && r.state.Processing? && next.Some?
    ensures RowInv(GiveBackRow(r, error, next, now))
    ensures PhaseOf(GiveBackRow(r, error, next, now)) == GivenBack(PhaseOf(r))
  {}

  lemma SweepSimulates(p: Params, q: Queue, term: int)
    requires TableInv(q.jobs)
    ensures TableInv(Sweep(q.jobs, term, q.now))
    ensures Allows(SpecOf(q), Expire(Released(q.jobs, term, q.now)), SpecOf(Next(p, q, Sweeping(term))))
  {
    forall id <- q.jobs | Reapable(q.jobs[id], term, q.now) {
      GiveBackSimulates(q.jobs[id], "lease expired", Some(q.now), q.now);
    }
    var a, b := SpecOf(q), SpecOf(Next(p, q, Sweeping(term)));
    var ids := Released(q.jobs, term, q.now);
    forall id <- ids ensures Lapsed(a, id) {}
    assert b.jobs == map id | id in a.jobs :: if id in ids then GivenBack(a.jobs[id]) else a.jobs[id];
  }

  /** The owner's message, read on its row. */
  lemma ReportedRow(p: Params, q: Queue, e: Event)
    requires TableInv(q.jobs) && (e.Completing? || e.Failing? || e.Beating?) && !e.fault.Dropped?
    requires Owned(q.jobs, e.id, e.worker)
    ensures
      var r := q.jobs[e.id];
      var after := if e.Completing? then CompleteRow(r, q.now)
                   else if e.Failing? then FailRow(r, e.error, p.base, q.now)
                   else BeatRow(r, p.leaseFor, q.now);
      && Next(p, q, e) == q.(jobs := q.jobs[e.id := after])
      && RowInv(after)
      && PhaseOf(after) == (if e.Completing? then Finished
                            else if e.Failing? then GivenBack(PhaseOf(r))
                            else PhaseOf(r).(until := q.now + p.leaseFor))
  {
    var r := q.jobs[e.id];
    assert RowInv(r);
    if e.Failing? {
      GiveBackSimulates(r, e.error,
        if CanRetry(r) then Some(q.now + p.base * Pow2(r.retryCount)) else r.nextRunAt, q.now);
    }
  }

  lemma ReportSimulates(p: Params, q: Queue, e: Event)
    requires TableInv(q.jobs) && (e.Completing? || e.Failing? || e.Beating?)
    ensures TableInv(Next(p, q, e).jobs)
    ensures Allows(SpecOf(q), ActionOf(p, q, e), SpecOf(Next(p, q, e)))
  {
    if !e.fault.Dropped? && Owned(q.jobs, e.id, e.worker) {
      ReportedRow(p, q, e);
      UpdateSimulates(q, e.id, Next(p, q, e).jobs[e.id]);
    }
  }

  lemma StepSimulates(p: Params, q: Queue, e: Event)
    requires QueueInv(q) && Enabled(q, e) && !Forges(q, e)
    ensures TableInv(Next(p, q, e).jobs)
    ensures Allows(SpecOf(q), ActionOf(p, q, e), SpecOf(Next(p, q, e)))
  {
    match e
    case Create(id, status, m, error) =>
      if id !in q.jobs {
        NewRowInvIff(status, m, error, q.now);
        UpdateSimulates(q, id, NewRow(status, m, error, q.now));
      }
    case Claiming(term, w, id) =>
      UpdateSimulates(q, id, ClaimRow(q.jobs[id], term, w, p.leaseFor, q.now));
    case Completing(_, _, _) => ReportSimulates(p, q, e);
    case Failing(_, _, _, _) => ReportSimulates(p, q, e);
    case Beating(_, _, _) => ReportSimulates(p, q, e);
    case Sweeping(term) => SweepSimulates(p, q, term);
    case Restart => MigrateIsIdentity(q.jobs);
    case _ =>
  }

  /** Each step of the run is a step the specification allows, between the states it abstracts to. */
  ghost predicate Simulated(p: Params, run: Run) {
    && TableInv(StateOf(p, run).jobs)
    && (run.Then? ==>
          && Simulated(p, run.before)
          && !Forges(StateOf(p, run.before), run.event)
          && Allows(SpecOf(StateOf(p, run.before)), ActionOf(p, StateOf(p, run.before), run.event),
                    SpecOf(StateOf(p, run))))
    && (run.Begin? ==> SpecOf(StateOf(p, run)).jobs == map[])
  }

  /** Any interleaving whatever of servers, deposed servers, workers, sweeps, lost replies and handovers
      is a run of the simple queue. */
  lemma {:induction false} RunsSimulateSimpleQueue(p: Params, run: Run)
    requires Legal(p, run) && Clean(p, run)
    ensures Simulated(p, run)
  {
    InvHolds(p, run);
    if run.Then? {
      RunsSimulateSimpleQueue(p, run.before);
      InvHolds(p, run.before);
      StepSimulates(p, StateOf(p, run.before), run.event);
    }
  }

  /** Read back on the rows: whenever a worker stops running a job, either its own report did it, or its
      lease had already run out and a sweep by somebody took the job away. */
  lemma OnlyOwnerOrExpiryEndsARun(p: Params, q: Queue, e: Event, id: JobId, w: WorkerId)
    requires Enabled(q, e) && Owned(q.jobs, id, w) && !Owned(Next(p, q, e).jobs, id, w)
    ensures
      || ((e.Completing? || e.Failing?) && !e.fault.Dropped? && e.worker == w && e.id == id)
      || (e.Sweeping? && Reapable(q.jobs[id], e.term, q.now))
  {}
}
