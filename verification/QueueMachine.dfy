/** The job queue as one step machine: any number of servers, workers, sweeps and handovers,
    interleaved in any order, over unbounded time.

    The election is abstract here. All it promises is that every win carries a term above all earlier
    wins; `top` is the highest term won so far. Servers, deposed or not, stamp claims and sweeps with
    some term that was won. */
module QueueMachine {
  import opened Jobs

  /** What `queue.New` fixes for the store: the job lease and the backoff base. */
  datatype Params = Params(leaseFor: Time, base: Time)

  const SECOND: Time := 1_000_000_000

  const DEFAULT_RETRY_BASE: Time := 1 * SECOND

  const DEFAULT_LEASE: Time := 30 * SECOND

  /** Whatever the caller asks for, the queue ends up with a positive lease and backoff base: the caller's, or thirty
      seconds for the lease and one second for the base. */
  function NewParams(retryBaseDelay: Time, leaseFor: Time): (p: Params)
    ensures p.leaseFor > 0 && p.base > 0
    ensures (p.leaseFor == leaseFor <==> leaseFor > 0) && (p.base == retryBaseDelay <==> retryBaseDelay > 0)
    ensures leaseFor <= 0 ==> p.leaseFor == 30_000_000_000
    ensures retryBaseDelay <= 0 ==> p.base == 1_000_000_000
  {
    Params(if leaseFor <= 0 then DEFAULT_LEASE else leaseFor,
           if retryBaseDelay <= 0 then DEFAULT_RETRY_BASE else retryBaseDelay)
  }

  datatype Queue = Queue(now: Time, jobs: Table, top: int)

  /** How a statement's round trip may go wrong: it never ran, or it ran and the answer was lost. */
  datatype Fault = NoFault | Dropped | ReplyLost

  datatype Event =
    | Tick(to: Time)
    | Create(cid: JobId, status: string, maxRetries: int, error: string)
    | Claiming(term: int, worker: WorkerId, id: JobId)
    | Completing(worker: WorkerId, id: JobId, fault: Fault)
    | Failing(worker: WorkerId, id: JobId, error: string, fault: Fault)
    | Beating(worker: WorkerId, id: JobId, fault: Fault)
    | Sweeping(term: int)
    | Winning(term: int)
    | Restart

  /** What each step needs before it can happen at all. A refused report is enabled: it changes nothing. */
  predicate Enabled(q: Queue, e: Event) {
    match e
    case Tick(to) => q.now <= to
    case Create(_, _, _, _) => true
    case Claiming(term, w, id) => term <= q.top && w != "" && id in q.jobs && Visible(q.jobs[id], q.now)
    case Completing(w, _, _) => w != ""
    case Failing(w, _, _, _) => w != ""
    case Beating(w, _, _) => w != ""
    case Sweeping(term) => term <= q.top
    case Winning(term) => term > q.top
    case Restart => true
  }

  function Next(p: Params, q: Queue, e: Event): Queue {
    match e
    case Tick(to) => q.(now := to)
    case Create(id, status, m, error) => q.(jobs := CreateJob(q.jobs, id, status, m, error, q.now))
    case Claiming(term, w, id) => q.(jobs := Claim(q.jobs, id, term, w, p.leaseFor, q.now))
    case Completing(w, id, f) => if f.Dropped? then q else q.(jobs := Complete(q.jobs, id, w, q.now))
    case Failing(w, id, error, f) => if f.Dropped? then q else q.(jobs := Fail(q.jobs, id, w, error, p.base, q.now))
    case Beating(w, id, f) => if f.Dropped? then q else q.(jobs := Beat(q.jobs, id, w, p.leaseFor, q.now))
    case Sweeping(term) => q.(jobs := Sweep(q.jobs, term, q.now))
    case Winning(term) => q.(top := term)
    case Restart => q.(jobs := Migrate(q.jobs))
  }

  /** A history: where it began, and the steps taken since, newest last. */
  datatype Run = Begin(start: Queue) | Then(before: Run, event: Event)

  function StateOf(p: Params, run: Run): Queue {
    match run
    case Begin(q) => q
    case Then(r, e) => Next(p, StateOf(p, r), e)
  }

  predicate Legal(p: Params, run: Run) {
    match run
    case Begin(q) => q.jobs == map[] && q.top >= 0
    case Then(r, e) => Legal(p, r) && Enabled(StateOf(p, r), e)
  }

  /** The step inserts a row whose status forges a lifecycle state. */
  predicate Forges(q: Queue, e: Event) {
    e.Create? && e.cid !in q.jobs && !CleanStatus(e.status)
  }

  predicate Clean(p: Params, run: Run) {
    run.Then? ==> Clean(p, run.before) && !Forges(StateOf(p, run.before), run.event)
  }

  /** `later` continues `run` by zero or more steps. */
  predicate Extends(run: Run, later: Run) {
    run == later || (later.Then? && Extends(run, later.before))
  }

  /** The invariant held in every state of the run, the last one included. */
  predicate AlwaysInOrder(p: Params, run: Run) {
    TableInv(StateOf(p, run).jobs) && (run.Then? ==> AlwaysInOrder(p, run.before))
  }

  /** A row in order, stamped no higher than the highest term won, created before it last started, started
      before it was over, and dated no later than now. */
  predicate RowFits(r: Row, top: int, now: Time) {
    && RowInv(r)
    && r.claimTerm <= top
    && r.createdAt <= now
    && (r.startedAt.Some? ==> r.createdAt <= r.startedAt.value <= now)
    && (r.doneAt.Some? ==> r.startedAt.Some? && r.startedAt.value <= r.doneAt.value <= now)
  }

  predicate QueueInv(q: Queue) {
    && TableInv(q.jobs)
    && q.top >= 0
    && (forall id <- q.jobs :: RowFits(q.jobs[id], q.top, q.now))
  }

  lemma StepKeepsRow(p: Params, q: Queue, e: Event, id: JobId)
    requires QueueInv(q) && Enabled(q, e) && !Forges(q, e) && id in Next(p, q, e).jobs
    ensures RowFits(Next(p, q, e).jobs[id], Next(p, q, e).top, Next(p, q, e).now)
  {
    if id in q.jobs {
      assert RowFits(q.jobs[id], q.top, q.now);
    } else {
      NewRowInvIff(e.status, e.maxRetries, e.error, q.now);
    }
  }

  lemma StepKeepsInv(p: Params, q: Queue, e: Event)
    requires QueueInv(q) && Enabled(q, e) && !Forges(q, e)
    ensures QueueInv(Next(p, q, e))
  {
    forall id <- Next(p, q, e).jobs
      ensures RowFits(Next(p, q, e).jobs[id], Next(p, q, e).top, Next(p, q, e).now)
    {
      StepKeepsRow(p, q, e, id);
    }
  }

  lemma {:induction false} InvHolds(p: Params, run: Run)
    requires Legal(p, run) && Clean(p, run)
    ensures QueueInv(StateOf(p, run))
  {
    if run.Then? {
      InvHolds(p, run.before);
      StepKeepsInv(p, StateOf(p, run.before), run.event);
    }
  }

  /** Rows stay in order through a whole run if, and only if, no client forged a lifecycle state on the way. */
  lemma {:induction false} RowsStayInOrderIff(p: Params, run: Run)
    requires Legal(p, run)
    ensures AlwaysInOrder(p, run) <==> Clean(p, run)
  {
    if run.Then? {
      RowsStayInOrderIff(p, run.before);
      var q := StateOf(p, run.before);
      if Clean(p, run) {
        InvHolds(p, run);
      } else if Clean(p, run.before) {
        var e := run.event;
        NewRowInvIff(e.status, e.maxRetries, e.error, q.now);
        assert !RowInv(StateOf(p, run).jobs[e.cid]);
      }
    }
  }

  /** On any table a clean run can reach, a server restart's migration is a no-op. */
  lemma {:induction false} RestartChangesNothing(p: Params, run: Run)
    requires Legal(p, run) && Clean(p, run)
    ensures Next(p, StateOf(p, run), Restart) == StateOf(p, run)
  {
    InvHolds(p, run);
    MigrateIsIdentity(StateOf(p, run).jobs);
  }

  lemma {:induction false} PrefixIsFine(p: Params, run: Run, later: Run)
    requires Legal(p, later) && Clean(p, later) && Extends(run, later)
    ensures Legal(p, run) && Clean(p, run)
  {
    if run != later { PrefixIsFine(p, run, later.before); }
  }

  // ---------- What a continuation can never undo ----------

  lemma {:induction false} ClaimTermNeverFalls(p: Params, run: Run, later: Run, id: JobId)
    requires Legal(p, later) && Extends(run, later) && id in StateOf(p, run).jobs
    ensures id in StateOf(p, later).jobs
    ensures StateOf(p, run).jobs[id].claimTerm <= StateOf(p, later).jobs[id].claimTerm
  {
    if run != later { ClaimTermNeverFalls(p, run, later.before, id); }
  }

  /** The highest term that ever claimed the job; 0 means nobody did. */
  function HighestClaim(run: Run, id: JobId): int {
    match run
    case Begin(_) => 0
    case Then(r, e) => if e.Claiming? && e.id == id then Max(HighestClaim(r, id), e.term) else HighestClaim(r, id)
  }

  lemma StepStampsRow(p: Params, q: Queue, e: Event, id: JobId)
    requires Enabled(q, e) && id in Next(p, q, e).jobs
    ensures
      Next(p, q, e).jobs[id].claimTerm ==
        if id !in q.jobs then 0
        else if e.Claiming? && e.id == id then Max(q.jobs[id].claimTerm, e.term)
        else q.jobs[id].claimTerm
  {}

  /** The fencing token is exactly what its comment says: the highest term that ever dispatched the job. */
  lemma {:induction false} ClaimTermIsHighest(p: Params, run: Run, id: JobId)
    requires Legal(p, run)
    ensures id !in StateOf(p, run).jobs ==> HighestClaim(run, id) == 0
    ensures id in StateOf(p, run).jobs ==> StateOf(p, run).jobs[id].claimTerm == HighestClaim(run, id)
  {
    if run.Then? {
      ClaimTermIsHighest(p, run.before, id);
      if id in StateOf(p, run).jobs { StepStampsRow(p, StateOf(p, run.before), run.event, id); }
    }
  }

  /** A claim lands exactly when the job is visible, whatever its term: a deposed leader's is not refused. The worker
      then owns the job, under the highest term that ever claimed it. */
  lemma ClaimLandsIff(p: Params, run: Run, term: int, w: WorkerId, id: JobId)
    requires Legal(p, run) && id in StateOf(p, run).jobs && term <= StateOf(p, run).top && w != ""
    ensures
      var q, e := StateOf(p, run), Claiming(term, w, id);
      && (Enabled(q, e) <==> Visible(q.jobs[id], q.now))
      && (Next(p, q, e).jobs != q.jobs <==> Visible(q.jobs[id], q.now))
      && (Visible(q.jobs[id], q.now) ==>
            && Owns(Next(p, q, e).jobs[id], w)
            && Next(p, q, e).jobs[id].claimTerm == HighestClaim(Then(run, e), id) == Max(HighestClaim(run, id), term))
  {
    ClaimTermIsHighest(p, run, id);
    var q := StateOf(p, run);
    if Visible(q.jobs[id], q.now) {
      assert Next(p, q, Claiming(term, w, id)).jobs[id].state.Processing?;
    }
  }

  /** A sweep stamped `term` recovers a job exactly when its lease has run out and no higher term ever claimed it:
      after a deposed leader's claim, only a reign at least as new as the newest that ever claimed it can. */
  lemma SweepRecoversIff(p: Params, run: Run, term: int, id: JobId)
    requires Legal(p, run) && id in StateOf(p, run).jobs
    ensures
      var q := StateOf(p, run);
      Next(p, q, Sweeping(term)).jobs[id] != q.jobs[id] <==> Expired(q.jobs[id], q.now) && HighestClaim(run, id) <= term
  {
    ClaimTermIsHighest(p, run, id);
    var q := StateOf(p, run);
    if Reapable(q.jobs[id], term, q.now) {
      assert Next(p, q, Sweeping(term)).jobs[id].retryCount == q.jobs[id].retryCount + 1;
    }
  }

  lemma {:induction false} HighestClaimNeverFalls(run: Run, later: Run, id: JobId)
    requires Extends(run, later)
    ensures HighestClaim(run, id) <= HighestClaim(later, id)
  {
    if run != later { HighestClaimNeverFalls(run, later.before, id); }
  }

  /** Once a term has claimed a job, a sweep stamped with a lower term leaves that row alone, ever after. */
  lemma StaleSweepIsHarmless(p: Params, run: Run, later: Run, claimed: Event, stale: int)
    requires Legal(p, later) && Extends(Then(run, claimed), later)
    requires claimed.Claiming? && stale < claimed.term
    ensures claimed.id in StateOf(p, later).jobs
    ensures Next(p, StateOf(p, later), Sweeping(stale)).jobs[claimed.id] == StateOf(p, later).jobs[claimed.id]
  {
    ExtendsIsLegal(p, Then(run, claimed), later);
    ClaimTermNeverFalls(p, Then(run, claimed), later, claimed.id);
    HighestClaimNeverFalls(Then(run, claimed), later, claimed.id);
    SweepRecoversIff(p, later, stale, claimed.id);
  }

  lemma {:induction false} ExtendsIsLegal(p: Params, run: Run, later: Run)
    requires Legal(p, later) && Extends(run, later)
    ensures Legal(p, run)
  {
    if run != later { ExtendsIsLegal(p, run, later.before); }
  }

  /** A job that is done or dead-lettered keeps its row, column for column, through every continuation. */
  lemma {:induction false} TerminalRowsNeverChange(p: Params, run: Run, later: Run, id: JobId)
    requires Legal(p, later) && Clean(p, later) && Extends(run, later) && id in StateOf(p, run).jobs
    requires StateOf(p, run).jobs[id].state.Done? || StateOf(p, run).jobs[id].state.Failed?
    ensures id in StateOf(p, later).jobs && StateOf(p, later).jobs[id] == StateOf(p, run).jobs[id]
  {
    if run != later {
      TerminalRowsNeverChange(p, run, later.before, id);
      InvHolds(p, later.before);
    }
  }

  /** A sweep stamped with the highest term won leaves no expired lease behind, whoever claimed the job. */
  lemma TopSweepStrandsNobody(p: Params, run: Run)
    requires Legal(p, run) && Clean(p, run)
    ensures
      var q := StateOf(p, run);
      var q' := Next(p, q, Sweeping(q.top));
      && Released(q.jobs, q.top, q.now) == (set id | id in q.jobs && Expired(q.jobs[id], q.now))
      && forall id <- q'.jobs :: !Expired(q'.jobs[id], q'.now)
  {
    InvHolds(p, run);
  }

  /** A row a client inserts as 'processing' carries no lease and no worker, so no claim, report,
      heartbeat or sweep ever touches it again; only a restart's migration gives it a lease to lose. */
  lemma {:induction false} ForgedProcessingIsStuck(p: Params, run: Run, later: Run, id: JobId)
    requires Legal(p, later) && Extends(run, later) && id in StateOf(p, run).jobs
    requires StateOf(p, run).jobs[id].state.Processing?
    requires StateOf(p, run).jobs[id].worker == "" && StateOf(p, run).jobs[id].lease.None?
    requires NoRestart(run, later)
    ensures id in StateOf(p, later).jobs && StateOf(p, later).jobs[id] == StateOf(p, run).jobs[id]
  {
    if run != later { ForgedProcessingIsStuck(p, run, later.before, id); }
  }

  /** Whatever status a client makes up, other than pending, its row is stored as sent and never changes again, for
      as long as no restart gives a forged processing row a lease. */
  lemma {:induction false} ForgedRowIsStuck(p: Params, run: Run, later: Run, made: Event)
    requires made.Create? && made.cid !in StateOf(p, run).jobs && made.status != "" && made.status != "pending"
    requires Legal(p, later) && Extends(Then(run, made), later)
    requires made.status == "processing" ==> NoRestart(Then(run, made), later)
    ensures made.cid in StateOf(p, later).jobs
    ensures
      var r, s, now := StateOf(p, later).jobs[made.cid], made.status, StateOf(p, run).now;
      && (r.state.Processing? <==> s == "processing") && (r.state.Done? <==> s == "done")
      && (r.state.Failed? <==> s == "failed") && (r.state.Other? ==> r.state.text == s) && !r.state.Pending?
      && r == Row(r.state, 0, if made.maxRetries == 0 then 3 else made.maxRetries, "", None, 0,
                  Some(now), now, None, None, made.error)
  {
    if Then(run, made) != later { ForgedRowIsStuck(p, run, later.before, made); }
  }

  predicate NoSweep(run: Run, later: Run)
    requires Extends(run, later)
  {
    run == later || (!later.event.Sweeping? && NoSweep(run, later.before))
  }

  /** A row no claim, report or heartbeat can touch: processing, and nobody's. */
  predicate Unclaimed(r: Row) { r.state.Processing? && r.worker == "" }

  lemma {:induction false} RestartedForgedWaits(p: Params, run: Run, later: Run, id: JobId)
    requires Legal(p, later) && Extends(Then(run, Restart), later) && NoSweep(Then(run, Restart), later)
    requires id in StateOf(p, run).jobs && Unclaimed(StateOf(p, run).jobs[id])
    requires StateOf(p, run).jobs[id].lease.None? && StateOf(p, run).jobs[id].nextRunAt.Some?
    ensures id in StateOf(p, later).jobs
    ensures
      var r := StateOf(p, run).jobs[id];
      StateOf(p, later).jobs[id] == r.(lease := Some(r.createdAt))
  {
    if Then(run, Restart) != later { RestartedForgedWaits(p, run, later.before, id); }
  }

  /** What a restart does for a forged processing row: the next sweep gives it back like any expired job, as long as
      the clock has moved on from its creation and the sweep's term is not below the row's stamp. */
  lemma RestartFreesForged(p: Params, run: Run, later: Run, id: JobId, term: int)
    requires Legal(p, later) && Extends(Then(run, Restart), later) && NoSweep(Then(run, Restart), later)
    requires id in StateOf(p, run).jobs && Unclaimed(StateOf(p, run).jobs[id])
    requires StateOf(p, run).jobs[id].lease.None? && StateOf(p, run).jobs[id].nextRunAt.Some?
    ensures id in Next(p, StateOf(p, later), Sweeping(term)).jobs
    ensures
      var q, r := StateOf(p, later), StateOf(p, run).jobs[id];
      var swept := Next(p, q, Sweeping(term)).jobs[id];
      && (!swept.state.Processing? <==> r.createdAt < q.now && r.claimTerm <= term)
      && (!swept.state.Processing? ==>
            && swept.retryCount == r.retryCount + 1 && swept.lastError == "lease expired"
            && (if r.retryCount < r.maxRetries then Visible(swept, q.now) else swept.state.Failed?))
  {
    RestartedForgedWaits(p, run, later, id);
  }

  predicate NoRestart(run: Run, later: Run)
    requires Extends(run, later)
  {
    run == later || (!later.event.Restart? && NoRestart(run, later.before))
  }

  /** A job claimed under term 2, given back, and due again. */
  const GIVEN_BACK: Run :=
    Then(Then(Then(Then(Then(Then(Begin(Queue(1, map[], 0)), Create("j", "", 3, "")), Winning(1)), Winning(2)),
      Claiming(2, "v", "j")), Failing("v", "j", "boom", NoFault)), Tick(2))

  lemma GivenBackIsLegal()
    ensures
      var held := ClaimRow(NewRow("", 3, "", 1), 2, "v", 30, 1);
      && Legal(Params(30, 1), GIVEN_BACK)
      && StateOf(Params(30, 1), GIVEN_BACK) == Queue(2, map["j" := FailRow(held, "boom", 1, 1)], 2)
  {
    var p := Params(30, 1);
    var r1 := Then(Begin(Queue(1, map[], 0)), Create("j", "", 3, ""));
    var row := NewRow("", 3, "", 1);
    assert StateOf(p, r1) == Queue(1, map["j" := row], 0) && Legal(p, r1);
    var r3 := Then(Then(r1, Winning(1)), Winning(2));
    assert StateOf(p, r3) == Queue(1, map["j" := row], 2) && Legal(p, r3);
    var r4 := Then(r3, Claiming(2, "v", "j"));
    var held := ClaimRow(row, 2, "v", 30, 1);
    assert Visible(row, 1);
    assert StateOf(p, r4) == Queue(1, map["j" := held], 2) && Legal(p, r4);
    assert Owned(StateOf(p, r4).jobs, "j", "v");
    var r5 := Then(r4, Failing("v", "j", "boom", NoFault));
    assert StateOf(p, r5) == Queue(1, map["j" := FailRow(held, "boom", 1, 1)], 2) && Legal(p, r5);
  }

  /** It happens: the claim of a leader deposed by term 2 lands on a job that term had claimed, and once that lease
      has run out too the deposed leader's own sweep cannot undo it, while term 2's can. */
  lemma DeposedClaimStillLands()
    ensures
      var p, stale := Params(30, 1), Then(GIVEN_BACK, Claiming(1, "w", "j"));
      var q := StateOf(p, Then(stale, Tick(33)));
      && Legal(p, Then(stale, Tick(33))) && "j" in q.jobs && Owns(q.jobs["j"], "w")
      && Next(p, q, Sweeping(1)).jobs["j"] == q.jobs["j"] && Next(p, q, Sweeping(2)).jobs["j"].state.Pending?
  {
    var p := Params(30, 1);
    GivenBackIsLegal();
    assert Pow2(0) == 1;
    ClaimLandsIff(p, GIVEN_BACK, 1, "w", "j");
    var stale := Then(GIVEN_BACK, Claiming(1, "w", "j"));
    var after := ClaimRow(StateOf(p, GIVEN_BACK).jobs["j"], 1, "w", 30, 2);
    assert StateOf(p, stale).jobs["j"] == after && StateOf(p, stale).now == 2 && Legal(p, stale);
    assert Reapable(after, 2, 33) && !Reapable(after, 1, 33);
  }
}
