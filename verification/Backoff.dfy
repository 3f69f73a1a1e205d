/** Exponential backoff over whole runs: how long a job has verifiably waited by the time it is claimed. */
module Backoff {
  import opened Jobs
  import opened QueueMachine
  import opened Attempts

  /** The report lands and sends the job back for another attempt. */
  predicate Retries(q: Queue, e: Event, id: JobId) {
    e.Failing? && e.id == id && !e.fault.Dropped? && Owned(q.jobs, id, e.worker) && CanRetry(q.jobs[id])
  }

  /** The sum of base * 2^i over the attempts i that ended in a reported failure. */
  function Owed(p: Params, run: Run, id: JobId): Time {
    match run
    case Begin(_) => 0
    case Then(r, e) =>
      Owed(p, r, id) + Earned(p, StateOf(p, r), e, id)
  }

  function ReportedFailures(p: Params, run: Run, id: JobId): nat {
    match run
    case Begin(_) => 0
    case Then(r, e) => ReportedFailures(p, r, id) + if Retries(StateOf(p, r), e, id) then 1 else 0
  }

  /** The row shows that `owed` has been waited out, or will have been by the next claim. */
  predicate Waited(r: Row, owed: Time) {
    && (r.state.Pending? ==> r.nextRunAt.Some? && r.nextRunAt.value >= r.createdAt + owed)
    && (r.state.Processing? ==> r.startedAt.Some? && r.startedAt.value >= r.createdAt + owed)
  }

  function Earned(p: Params, q: Queue, e: Event, id: JobId): Time {
    if Retries(q, e, id) then p.base * Pow2(q.jobs[id].retryCount) else 0
  }

  lemma StepKeepsWaited(p: Params, q: Queue, e: Event, id: JobId, owed: Time)
    requires QueueInv(q) && Enabled(q, e) && !Forges(q, e) && id in q.jobs && Waited(q.jobs[id], owed)
    ensures id in Next(p, q, e).jobs && Waited(Next(p, q, e).jobs[id], owed + Earned(p, q, e, id))
  {}

  lemma {:induction false} BackoffIsServed(p: Params, run: Run, id: JobId)
    requires Legal(p, run) && Clean(p, run)
    ensures id !in StateOf(p, run).jobs ==> Owed(p, run, id) == 0
    ensures id in StateOf(p, run).jobs ==> Waited(StateOf(p, run).jobs[id], Owed(p, run, id))
  {
    if run.Then? {
      InvHolds(p, run.before);
      BackoffIsServed(p, run.before, id);
      var q := StateOf(p, run.before);
      if id in q.jobs {
        StepKeepsWaited(p, q, run.event, id, Owed(p, run.before, id));
      } else {
        assert Earned(p, q, run.event, id) == 0;
      }
    }
  }

  /** No claim comes before creation plus every backoff the job has earned so far. */
  lemma ClaimsWaitOutBackoff(p: Params, run: Run, e: Event)
    requires Legal(p, run) && Clean(p, run)
    requires e.Claiming? && Enabled(StateOf(p, run), e)
    ensures StateOf(p, run).now >= StateOf(p, run).jobs[e.id].createdAt + Owed(p, run, e.id)
  {
    BackoffIsServed(p, run, e.id);
  }

  /** `owed` after k attempts were given back, `reported` of them by their workers. */
  predicate ClosedForm(base: Time, owed: Time, reported: nat, k: nat) {
    && reported <= k
    && owed <= base * (Pow2(k) - 1)
    && (reported == k ==> owed == base * (Pow2(k) - 1))
  }

  lemma ClosedFormStep(base: Time, owed: Time, reported: nat, k: nat)
    requires base >= 0 && ClosedForm(base, owed, reported, k)
    ensures ClosedForm(base, owed, reported, k + 1)
    ensures ClosedForm(base, owed + base * Pow2(k), reported + 1, k + 1)
  {
    assert base * (Pow2(k + 1) - 1) == base * (Pow2(k) - 1) + base * Pow2(k);
    assert base * Pow2(k) >= 0;
  }

  lemma StepKeepsClosedForm(p: Params, q: Queue, e: Event, id: JobId, owed: Time, reported: nat)
    requires QueueInv(q) && Enabled(q, e) && id in q.jobs && p.base >= 0
    requires ClosedForm(p.base, owed, reported, q.jobs[id].retryCount)
    ensures id in Next(p, q, e).jobs
    ensures ClosedForm(p.base, owed + Earned(p, q, e, id), reported + if Retries(q, e, id) then 1 else 0,
                       Next(p, q, e).jobs[id].retryCount)
  {
    ClosedFormStep(p.base, owed, reported, q.jobs[id].retryCount);
  }

  /** A stall is no wait but still advances the exponent: with k attempts given back the job owes at most
      base * (2^k - 1), and exactly that when all k were reported by their workers. */
  lemma {:induction false} OwedInClosedForm(p: Params, run: Run, id: JobId)
    requires Legal(p, run) && Clean(p, run) && p.base >= 0
    ensures id !in StateOf(p, run).jobs ==> Owed(p, run, id) == 0 && ReportedFailures(p, run, id) == 0
    ensures id in StateOf(p, run).jobs ==>
      ClosedForm(p.base, Owed(p, run, id), ReportedFailures(p, run, id), StateOf(p, run).jobs[id].retryCount)
  {
    if run.Then? {
      OwedInClosedForm(p, run.before, id);
      InvHolds(p, run.before);
      var q := StateOf(p, run.before);
      if id in q.jobs {
        StepKeepsClosedForm(p, q, run.event, id, Owed(p, run.before, id), ReportedFailures(p, run.before, id));
      } else if run.event.Create? {
        assert Earned(p, q, run.event, id) == 0;
      }
    }
  }

  /** The documented schedule: after k reported failures and nothing else, claim k + 1 is at least
      base * (2^k - 1) after creation. */
  lemma AttemptSchedule(p: Params, run: Run, e: Event, k: nat)
    requires Legal(p, run) && Clean(p, run) && p.base >= 0
    requires e.Claiming? && Enabled(StateOf(p, run), e)
    requires Claims(run, e.id) == k && ReportedFailures(p, run, e.id) == k
    ensures StateOf(p, run).now >= StateOf(p, run).jobs[e.id].createdAt + p.base * (Pow2(k) - 1)
  {
    AttemptsConserved(p, run, e.id);
    ClaimsWaitOutBackoff(p, run, e);
    OwedInClosedForm(p, run, e.id);
  }

  /** The numbers in the documentation: a queue made without a backoff base waits a second before the first retry, two
      more before the second, four more before the third. */
  lemma DefaultSchedule(retryBaseDelay: Time, leaseFor: Time, run: Run, e: Event, k: nat)
    requires retryBaseDelay <= 0
    requires Legal(NewParams(retryBaseDelay, leaseFor), run) && Clean(NewParams(retryBaseDelay, leaseFor), run)
    requires e.Claiming? && Enabled(StateOf(NewParams(retryBaseDelay, leaseFor), run), e)
    requires Claims(run, e.id) == k && ReportedFailures(NewParams(retryBaseDelay, leaseFor), run, e.id) == k
    ensures
      var q := StateOf(NewParams(retryBaseDelay, leaseFor), run);
      q.now >= q.jobs[e.id].createdAt + 1_000_000_000 * (Pow2(k) - 1)
  {
    AttemptSchedule(NewParams(retryBaseDelay, leaseFor), run, e, k);
  }

  /** The job "j" after k reported failures, created at 1 and due this very moment. */
  predicate OnSchedule(p: Params, run: Run, maxRetries: int, k: nat) {
    && Legal(p, run) && Clean(p, run) && Claims(run, "j") == k && ReportedFailures(p, run, "j") == k
    && var q := StateOf(p, run);
       && q.now == 1 + p.base * (Pow2(k) - 1) && q.top == 1 && "j" in q.jobs
       && q.jobs["j"].createdAt == 1 && q.jobs["j"].retryCount == k
       && q.jobs["j"].maxRetries == (if maxRetries == 0 then 3 else maxRetries)
       && q.jobs["j"].state.Pending? && q.jobs["j"].nextRunAt == Some(q.now)
  }

  lemma StepOn(p: Params, run: Run, e: Event)
    requires Legal(p, run) && Clean(p, run) && Enabled(StateOf(p, run), e) && !Forges(StateOf(p, run), e)
    ensures
      var later := Then(run, e);
      && Legal(p, later) && Clean(p, later) && StateOf(p, later) == Next(p, StateOf(p, run), e)
      && Claims(later, "j") == Claims(run, "j") + (if e.Claiming? && e.id == "j" then 1 else 0)
      && ReportedFailures(p, later, "j") == ReportedFailures(p, run, "j") + if Retries(StateOf(p, run), e, "j") then 1 else 0
  {}

  lemma OneMoreFailure(p: Params, run: Run, maxRetries: int, k: nat) returns (later: Run)
    requires OnSchedule(p, run, maxRetries, k) && p.base >= 0 && CanRetry(StateOf(p, run).jobs["j"])
    ensures OnSchedule(p, later, maxRetries, k + 1)
  {
    var q, claim := StateOf(p, run), Claiming(1, "w", "j");
    StepOn(p, run, claim);
    var held := Then(run, claim);
    assert StateOf(p, held).jobs["j"] == ClaimRow(q.jobs["j"], 1, "w", p.leaseFor, q.now);
    later := FailAndWait(p, held, k);
  }

  lemma FailAndWait(p: Params, held: Run, k: nat) returns (later: Run)
    requires Legal(p, held) && Clean(p, held) && Owned(StateOf(p, held).jobs, "j", "w")
    requires CanRetry(StateOf(p, held).jobs["j"]) && StateOf(p, held).jobs["j"].retryCount == k && p.base >= 0
    requires StateOf(p, held).now == 1 + p.base * (Pow2(k) - 1)
    ensures Legal(p, later) && Clean(p, later) && Claims(later, "j") == Claims(held, "j")
    ensures ReportedFailures(p, later, "j") == ReportedFailures(p, held, "j") + 1
    ensures StateOf(p, later).now == 1 + p.base * (Pow2(k + 1) - 1) && StateOf(p, later).top == StateOf(p, held).top
    ensures "j" in StateOf(p, later).jobs && StateOf(p, later).jobs["j"].nextRunAt == Some(StateOf(p, later).now)
    ensures StateOf(p, later).jobs["j"] == FailRow(StateOf(p, held).jobs["j"], "boom", p.base, StateOf(p, held).now)
  {
    var now, fail, wait := StateOf(p, held).now, Failing("w", "j", "boom", NoFault), p.base * Pow2(k);
    assert p.base * (Pow2(k + 1) - 1) == p.base * (Pow2(k) - 1) + wait && wait >= 0;
    StepOn(p, held, fail);
    StepOn(p, Then(held, fail), Tick(now + wait));
    later := Then(Then(held, fail), Tick(now + wait));
  }

  /** The schedule is not just a bound: for every number of failures within the budget there is a run in which the
      next claim can come exactly base * (2^k - 1) after creation. */
  lemma {:induction false} ScheduleIsAttained(p: Params, maxRetries: int, k: nat) returns (run: Run)
    requires p.base >= 0 && k <= if maxRetries == 0 then 3 else Max(0, maxRetries)
    ensures OnSchedule(p, run, maxRetries, k) && Enabled(StateOf(p, run), Claiming(1, "w", "j"))
  {
    if k == 0 {
      var start, create := Begin(Queue(1, map[], 0)), Create("j", "", maxRetries, "");
      StepOn(p, start, create);
      StepOn(p, Then(start, create), Winning(1));
      run := Then(Then(start, create), Winning(1));
      assert p.base * (Pow2(0) - 1) == 0;
    } else {
      var before := ScheduleIsAttained(p, maxRetries, k - 1);
      run := OneMoreFailure(p, before, maxRetries, k - 1);
    }
  }

  /** The gate is exact. After its k-th failure is reported the job is claimable from base * 2^k later on, and
      not a moment sooner; after a stall it is claimable at once. */
  lemma GateIsExact(p: Params, q: Queue, e: Event, id: JobId, t: Time)
    requires Enabled(q, e) && id in q.jobs && q.jobs[id].state.Processing?
    ensures id in Next(p, q, e).jobs
    ensures
      var after := Next(p, q, e).jobs[id];
      after.state.Pending? ==>
        && (Visible(after, t) <==> t >= q.now + Earned(p, q, e, id))
        && (Retries(q, e, id) || (e.Sweeping? && Earned(p, q, e, id) == 0))
        && after.lastError == (if e.Failing? then e.error else "lease expired")
  {}
}
