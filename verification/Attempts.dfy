/** How often a job can be tried: conservation of attempts, and a bound on all the work a run can hold. */
module Attempts {
  import opened Jobs
  import opened QueueMachine

  /** Times the job was handed to a worker. */
  function Claims(run: Run, id: JobId): nat {
    match run
    case Begin(_) => 0
    case Then(r, e) => Claims(r, id) + IsClaim(e, id)
  }

  function InHand(r: Row): nat {
    if r.state.Processing? || r.state.Done? then 1 else 0
  }

  function IsClaim(e: Event, id: JobId): nat {
    if e.Claiming? && e.id == id then 1 else 0
  }

  lemma StepConserves(p: Params, q: Queue, e: Event, id: JobId)
    requires QueueInv(q) && Enabled(q, e) && id in q.jobs
    ensures id in Next(p, q, e).jobs
    ensures Next(p, q, e).jobs[id].retryCount + InHand(Next(p, q, e).jobs[id])
            == q.jobs[id].retryCount + InHand(q.jobs[id]) + IsClaim(e, id)
  {}

  lemma {:induction false} ClaimsAreCounted(p: Params, run: Run, id: JobId)
    requires Legal(p, run) && Clean(p, run)
    ensures id !in StateOf(p, run).jobs ==> Claims(run, id) == 0
    ensures id in StateOf(p, run).jobs ==>
      Claims(run, id) == StateOf(p, run).jobs[id].retryCount + InHand(StateOf(p, run).jobs[id])
  {
    if run.Then? {
      ClaimsAreCounted(p, run.before, id);
      InvHolds(p, run.before);
      var q := StateOf(p, run.before);
      if id in q.jobs {
        StepConserves(p, q, run.event, id);
      } else {
        assert IsClaim(run.event, id) == 0;
      }
    }
  }

  /** Every claim is accounted for: it was given back (and counted in retry_count), is in hand, or finished.
      A job is dead-lettered exactly when max_retries + 1 attempts were given back, so it never runs more often. */
  lemma {:induction false} AttemptsConserved(p: Params, run: Run, id: JobId)
    requires Legal(p, run) && Clean(p, run)
    ensures id !in StateOf(p, run).jobs ==> Claims(run, id) == 0
    ensures id in StateOf(p, run).jobs ==>
      var r := StateOf(p, run).jobs[id];
      && Claims(run, id) == r.retryCount + InHand(r)
      && (r.state.Failed? <==> r.retryCount == Budget(r) + 1)
      && Claims(run, id) <= Budget(r) + 1
  {
    ClaimsAreCounted(p, run, id);
    InvHolds(p, run);
  }

  lemma {:induction false} ClaimsNeverFall(run: Run, later: Run, id: JobId)
    requires Extends(run, later)
    ensures Claims(run, id) <= Claims(later, id)
  {
    if run != later { ClaimsNeverFall(run, later.before, id); }
  }

  /** No attempt is handed out twice: two claims of one job, by whichever servers, are for different attempts,
      the later one for a higher. */
  lemma {:induction false} EachAttemptIsHandedOutOnce(p: Params, run: Run, claim: Event, later: Run, again: Event)
    requires Legal(p, later) && Clean(p, later) && Extends(Then(run, claim), later)
    requires claim.Claiming? && again.Claiming? && claim.id == again.id && Enabled(StateOf(p, later), again)
    ensures claim.id in StateOf(p, run).jobs
    ensures StateOf(p, run).jobs[claim.id].retryCount < StateOf(p, later).jobs[claim.id].retryCount
  {
    PrefixIsFine(p, Then(run, claim), later);
    ClaimsNeverFall(Then(run, claim), later, claim.id);
    ClaimsAreCounted(p, run, claim.id);
    ClaimsAreCounted(p, later, claim.id);
  }

  // ---------- The rank of a row ----------

  /** Steps a row may still take: a claim and an ending per attempt left. */
  function Rank(r: Row): nat {
    var left := Max(0, Budget(r) - r.retryCount);
    match r.state
    case Pending => 2 * left + 2
    case Processing => 2 * left + 1
    case _ => 0
  }

  function FullRank(r: Row): nat { 2 * (Budget(r) + 1) }

  /** The rows whose lifecycle state the step moved. */
  function Moved(a: Table, b: Table): set<JobId> {
    set id | id in a && id in b && a[id].state != b[id].state
  }

  /** All the claims, completions, failures and released rows of a run. */
  function Work(p: Params, run: Run): nat {
    match run
    case Begin(_) => 0
    case Then(r, _) => Work(p, r) + |Moved(StateOf(p, r).jobs, StateOf(p, run).jobs)|
  }

  ghost function SumRank(jobs: Table, ids: set<JobId>): nat
    requires ids <= jobs.Keys
  {
    if ids == {} then 0 else
      var id :| id in ids;
      Rank(jobs[id]) + SumRank(jobs, ids - {id})
  }

  ghost function SumFull(jobs: Table, ids: set<JobId>): nat
    requires ids <= jobs.Keys
  {
    if ids == {} then 0 else
      var id :| id in ids;
      FullRank(jobs[id]) + SumFull(jobs, ids - {id})
  }

  lemma {:induction false} SumRankSplit(jobs: Table, ids: set<JobId>, x: JobId)
    requires ids <= jobs.Keys && x in ids
    ensures SumRank(jobs, ids) == Rank(jobs[x]) + SumRank(jobs, ids - {x})
  {
    var id :| id in ids && SumRank(jobs, ids) == Rank(jobs[id]) + SumRank(jobs, ids - {id});
    if id != x {
      SumRankSplit(jobs, ids - {id}, x);
      SumRankSplit(jobs, ids - {x}, id);
      assert ids - {id} - {x} == ids - {x} - {id};
    }
  }

  lemma {:induction false} SumFullSplit(jobs: Table, ids: set<JobId>, x: JobId)
    requires ids <= jobs.Keys && x in ids
    ensures SumFull(jobs, ids) == FullRank(jobs[x]) + SumFull(jobs, ids - {x})
  {
    var id :| id in ids && SumFull(jobs, ids) == FullRank(jobs[id]) + SumFull(jobs, ids - {id});
    if id != x {
      SumFullSplit(jobs, ids - {id}, x);
      SumFullSplit(jobs, ids - {x}, id);
      assert ids - {id} - {x} == ids - {x} - {id};
    }
  }

  lemma CountSplit(moved: set<JobId>, ids: set<JobId>, x: JobId)
    requires x in ids
    ensures |moved * ids| == |moved * (ids - {x})| + if x in moved then 1 else 0
  {
    if x in moved {
      assert moved * ids == moved * (ids - {x}) + {x};
    } else {
      assert moved * ids == moved * (ids - {x});
    }
  }

  /** The row's rank did not rise, and fell if its state moved; its budget is untouched. */
  predicate Cheaper(a: Row, b: Row) {
    Rank(b) + (if a.state != b.state then 1 else 0) <= Rank(a) && Budget(a) == Budget(b)
  }

  /** If no row's rank rises and every moved row's falls, the sum falls by at least the number of moved rows. */
  lemma {:induction false} SumRankFalls(a: Table, b: Table, ids: set<JobId>)
    requires ids <= a.Keys && ids <= b.Keys
    requires forall id <- ids :: Cheaper(a[id], b[id])
    ensures |Moved(a, b) * ids| + SumRank(b, ids) <= SumRank(a, ids)
    decreases ids
  {
    if ids != {} {
      var x :| x in ids;
      SumRankSplit(a, ids, x);
      SumRankSplit(b, ids, x);
      SumRankFalls(a, b, ids - {x});
      CountSplit(Moved(a, b), ids, x);
    } else {
      assert Moved(a, b) * ids == {};
    }
  }

  lemma {:induction false} SumFullSame(a: Table, b: Table, ids: set<JobId>)
    requires ids <= a.Keys && ids <= b.Keys
    requires forall id <- ids :: Cheaper(a[id], b[id])
    ensures SumFull(a, ids) == SumFull(b, ids)
    decreases ids
  {
    if ids != {} {
      var x :| x in ids;
      SumFullSplit(a, ids, x);
      SumFullSplit(b, ids, x);
      SumFullSame(a, b, ids - {x});
    }
  }

  /** Every step of the machine lowers the rank of each row it moves, and raises none. */
  lemma StepLowersRank(p: Params, q: Queue, e: Event, id: JobId)
    requires QueueInv(q) && Enabled(q, e) && id in q.jobs
    ensures id in Next(p, q, e).jobs
    ensures Cheaper(q.jobs[id], Next(p, q, e).jobs[id])
  {}

  lemma MovesCostRank(a: Table, b: Table)
    requires a.Keys <= b.Keys && forall id <- a.Keys :: Cheaper(a[id], b[id])
    ensures |Moved(a, b)| + SumRank(b, a.Keys) <= SumRank(a, a.Keys)
    ensures SumFull(b, a.Keys) == SumFull(a, a.Keys)
  {
    SumRankFalls(a, b, a.Keys);
    SumFullSame(a, b, a.Keys);
    assert Moved(a, b) * a.Keys == Moved(a, b);
  }

  /** A step pays in rank for each row it moves. */
  lemma MovesArePaidFor(p: Params, q: Queue, e: Event, after: Table)
    requires QueueInv(q) && Enabled(q, e) && after == Next(p, q, e).jobs
    ensures q.jobs.Keys <= after.Keys
    ensures |Moved(q.jobs, after)| + SumRank(after, q.jobs.Keys) <= SumRank(q.jobs, q.jobs.Keys)
    ensures SumFull(after, q.jobs.Keys) == SumFull(q.jobs, q.jobs.Keys)
  {
    forall id <- q.jobs.Keys ensures id in after && Cheaper(q.jobs[id], after[id]) {
      StepLowersRank(p, q, e, id);
    }
    MovesCostRank(q.jobs, after);
  }

  /** A new row brings its own budget. */
  lemma NewRowBringsBudget(jobs: Table, ids: set<JobId>, id: JobId)
    requires jobs.Keys == ids + {id} && id !in ids && Rank(jobs[id]) <= FullRank(jobs[id])
    ensures SumRank(jobs, jobs.Keys) <= SumRank(jobs, ids) + FullRank(jobs[id])
    ensures SumFull(jobs, jobs.Keys) == SumFull(jobs, ids) + FullRank(jobs[id])
  {
    SumRankSplit(jobs, jobs.Keys, id);
    SumFullSplit(jobs, jobs.Keys, id);
    assert jobs.Keys - {id} == ids;
  }

  lemma KeysGrowOnlyByCreate(p: Params, q: Queue, e: Event)
    ensures Next(p, q, e).jobs.Keys == q.jobs.Keys + if e.Create? then {e.cid} else {}
  {}

  /** However sweeps, retries, servers and new jobs interleave, a run holds at most 2 * (max_retries + 1)
      state changes per job it ever created, and what is left over bounds all that can still happen. */
  lemma {:induction false} WorkIsBounded(p: Params, run: Run)
    requires Legal(p, run) && Clean(p, run)
    ensures
      var jobs := StateOf(p, run).jobs;
      Work(p, run) + SumRank(jobs, jobs.Keys) <= SumFull(jobs, jobs.Keys)
  {
    if run.Then? {
      WorkIsBounded(p, run.before);
      InvHolds(p, run.before);
      var q, e := StateOf(p, run.before), run.event;
      MovesArePaidFor(p, q, e, Next(p, q, e).jobs);
      KeysGrowOnlyByCreate(p, q, e);
      if e.Create? && e.cid !in q.jobs {
        NewRowBringsBudget(Next(p, q, e).jobs, q.jobs.Keys, e.cid);
      } else {
        assert Next(p, q, e).jobs.Keys == q.jobs.Keys;
      }
    }
  }
}
