/** Leases against the clock: a silent worker loses its job in time, an attentive one never does. */
module Deadlines {
  import opened Jobs
  import opened QueueMachine

  /** The step is a heartbeat for the job that reached the store. */
  predicate Touches(e: Event, id: JobId, w: WorkerId) {
    e.Beating? && e.id == id && e.worker == w && !e.fault.Dropped?
  }

  predicate Reports(e: Event, id: JobId, w: WorkerId) {
    (e.Completing? || e.Failing?) && e.id == id && e.worker == w && !e.fault.Dropped?
  }

  // ---------- A silent worker ----------

  /** The worker neither reports nor renews between `run` and `later`. */
  predicate Silent(run: Run, later: Run, id: JobId, w: WorkerId)
    requires Extends(run, later)
  {
    run == later || (Silent(run, later.before, id, w) && !Touches(later.event, id, w) && !Reports(later.event, id, w))
  }

  /** When the current-term leader last swept, `since` if not after `run`. */
  function LastSweep(p: Params, run: Run, later: Run, since: Time): Time
    requires Extends(run, later)
  {
    if run == later then since
    else if later.event == Sweeping(StateOf(p, later.before).top) then StateOf(p, later.before).now
    else LastSweep(p, run, later.before, since)
  }

  /** The clock never gets more than `every` ahead of the last current-term sweep. */
  predicate SweptEvery(p: Params, run: Run, later: Run, since: Time, every: Time)
    requires Extends(run, later)
  {
    && StateOf(p, later).now <= LastSweep(p, run, later, since) + every
    && (run != later ==> SweptEvery(p, run, later.before, since, every))
  }

  /** At some point since `run`, no later than `deadline`, the job had been given back with its attempt counted. */
  predicate GivenBackBy(p: Params, run: Run, later: Run, id: JobId, attempt: nat, deadline: Time)
    requires Extends(run, later)
  {
    || (var q := StateOf(p, later);
        && q.now <= deadline && id in q.jobs && q.jobs[id].retryCount == attempt + 1
        && (q.jobs[id].state.Pending? || q.jobs[id].state.Failed?))
    || (run != later && GivenBackBy(p, run, later.before, id, attempt, deadline))
  }

  predicate StillHeld(q: Queue, id: JobId, w: WorkerId, attempt: nat, until: Time) {
    && id in q.jobs && Owns(q.jobs[id], w)
    && q.jobs[id].retryCount == attempt && q.jobs[id].lease == Some(until)
  }

  /** Nothing but a sweep of the expired lease moves a silent worker's row. */
  lemma SilentStep(p: Params, q: Queue, e: Event, id: JobId, w: WorkerId, attempt: nat, until: Time)
    requires QueueInv(q) && Enabled(q, e) && StillHeld(q, id, w, attempt, until)
    requires !Touches(e, id, w) && !Reports(e, id, w)
    ensures
      var q' := Next(p, q, e);
      || (StillHeld(q', id, w, attempt, until) && (e == Sweeping(q.top) ==> q.now <= until))
      || (&& e.Sweeping? && q'.now == q.now && id in q'.jobs && q'.jobs[id].retryCount == attempt + 1
          && (q'.jobs[id].state.Pending? || q'.jobs[id].state.Failed?))
  {
    if e.Restart? { MigrateIsIdentity(q.jobs); }
  }

  lemma {:induction false} SilentJobIsHeldOrGivenBack(
    p: Params, run: Run, later: Run, id: JobId, w: WorkerId, attempt: nat, until: Time, since: Time, every: Time)
    requires Legal(p, later) && Clean(p, later) && Extends(run, later)
    requires StillHeld(StateOf(p, run), id, w, attempt, until) && since <= until
    requires Silent(run, later, id, w) && SweptEvery(p, run, later, since, every)
    ensures
      || GivenBackBy(p, run, later, id, attempt, until + every)
      || (StillHeld(StateOf(p, later), id, w, attempt, until) && LastSweep(p, run, later, since) <= until)
  {
    if run != later {
      SilentJobIsHeldOrGivenBack(p, run, later.before, id, w, attempt, until, since, every);
      if !GivenBackBy(p, run, later.before, id, attempt, until + every) {
        InvHolds(p, later.before);
        SilentStep(p, StateOf(p, later.before), later.event, id, w, attempt, until);
      }
    }
  }

  /** A job whose worker goes quiet after a claim or renewal is pending or dead-lettered again within
      leaseFor + reapEvery, provided current-term sweeps come at gaps of at most reapEvery, across any
      handovers and however many deposed servers sweep too. */
  lemma SilentJobIsRecovered(
    p: Params, run: Run, touch: Event, later: Run, id: JobId, w: WorkerId, since: Time, reapEvery: Time)
    requires p.leaseFor >= 0
    requires Extends(Then(run, touch), later) && Legal(p, later) && Clean(p, later)
    requires touch.Claiming? || Touches(touch, id, w)
    requires touch.id == id && touch.worker == w && Owned(StateOf(p, Then(run, touch)).jobs, id, w)
    requires since <= StateOf(p, run).now
    requires Silent(Then(run, touch), later, id, w)
    requires SweptEvery(p, Then(run, touch), later, since, reapEvery)
    requires StateOf(p, later).now > StateOf(p, run).now + p.leaseFor + reapEvery
    ensures GivenBackBy(p, Then(run, touch), later, id,
                        StateOf(p, Then(run, touch)).jobs[id].retryCount,
                        StateOf(p, run).now + p.leaseFor + reapEvery)
  {
    var first := Then(run, touch);
    PrefixIsFine(p, first, later);
    InvHolds(p, run);
    var q := StateOf(p, first);
    SilentJobIsHeldOrGivenBack(p, first, later, id, w, q.jobs[id].retryCount,
                               StateOf(p, run).now + p.leaseFor, since, reapEvery);
  }

  // ---------- An attentive worker ----------

  function LastTouch(p: Params, run: Run, later: Run, id: JobId, w: WorkerId): Time
    requires Extends(run, later)
  {
    if run == later then StateOf(p, run).now
    else if Touches(later.event, id, w) then StateOf(p, later.before).now
    else LastTouch(p, run, later.before, id, w)
  }

  /** The worker has not reported yet, and the clock never gets more than `gap` ahead of its last touch. */
  predicate Attentive(p: Params, run: Run, later: Run, id: JobId, w: WorkerId, gap: Time)
    requires Extends(run, later)
  {
    && StateOf(p, later).now <= LastTouch(p, run, later, id, w) + gap
    && (run != later ==> !Reports(later.event, id, w) && Attentive(p, run, later.before, id, w, gap))
  }

  /** As long as a worker touches the store at least once per lease it keeps its job, through any number
      of sweeps by any number of servers. */
  lemma {:induction false} AttentiveWorkerKeepsJob(
    p: Params, run: Run, later: Run, id: JobId, w: WorkerId, attempt: nat, gap: Time)
    requires Legal(p, later) && Clean(p, later) && Extends(run, later) && gap <= p.leaseFor
    requires StillHeld(StateOf(p, run), id, w, attempt, StateOf(p, run).now + p.leaseFor)
    requires Attentive(p, run, later, id, w, gap)
    ensures StillHeld(StateOf(p, later), id, w, attempt, LastTouch(p, run, later, id, w) + p.leaseFor)
  {
    if run != later {
      AttentiveWorkerKeepsJob(p, run, later.before, id, w, attempt, gap);
      InvHolds(p, later.before);
      AttentiveStep(p, StateOf(p, later.before), later.event, id, w, attempt,
                    LastTouch(p, run, later.before, id, w) + p.leaseFor);
    }
  }

  lemma AttentiveStep(p: Params, q: Queue, e: Event, id: JobId, w: WorkerId, attempt: nat, until: Time)
    requires QueueInv(q) && Enabled(q, e) && StillHeld(q, id, w, attempt, until) && q.now <= until
    requires !Reports(e, id, w)
    ensures StillHeld(Next(p, q, e), id, w, attempt, if Touches(e, id, w) then q.now + p.leaseFor else until)
  {
    if e.Restart? { MigrateIsIdentity(q.jobs); }
  }
}
