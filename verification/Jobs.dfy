/** The `jobs` table: its rows, and the effect of each SQL statement on it.
    Every statement is one atomic guarded update, so it is a function from table to table. */
module Jobs {

  datatype Option<+T> = None | Some(value: T)

  type JobId = string
  type WorkerId = string

  /** Any unit of time; only order and addition matter. */
  type Time = int

  /** The `state` column. It is free text in the schema, so unknown text is representable. */
  datatype State = Pending | Processing | Done | Failed | Other(text: string)

  datatype Row = Row(
    state: State,
    retryCount: nat,
    maxRetries: int,
    worker: WorkerId,          // "" while nobody owns the job
    lease: Option<Time>,       // lease_expires_at
    claimTerm: int,
    nextRunAt: Option<Time>,
    createdAt: Time,
    startedAt: Option<Time>,
    doneAt: Option<Time>,
    lastError: string)

  type Table = map<JobId, Row>

  function Max(a: int, b: int): int { if a < b then b else a }

  function Min(a: int, b: int): int { if a < b then a else b }

  function Pow2(n: nat): (p: nat)
    ensures p >= 1
  {
    if n == 0 then 1 else 2 * Pow2(n - 1)
  }

  /** max_retries may be negative, since only 0 is replaced by the default. */
  function Budget(r: Row): nat { Max(0, r.maxRetries) }

  // ---------- CreateJob ----------

  function ParseStatus(status: string): State {
    if status == "" || status == "pending" then Pending
    else if status == "processing" then Processing
    else if status == "done" then Done
    else if status == "failed" then Failed
    else Other(status)
  }

  function NewRow(status: string, maxRetries: int, error: string, now: Time): Row {
    Row(ParseStatus(status), 0, if maxRetries == 0 then 3 else maxRetries, "", None, 0,
        Some(now), now, None, None, error)
  }

  /** A status a client may send without forging a lifecycle state. */
  predicate CleanStatus(status: string) {
    ParseStatus(status).Pending? || ParseStatus(status).Other?
  }

  function CreateJob(jobs: Table, id: JobId, status: string, maxRetries: int, error: string, now: Time): Table {
    if id in jobs then jobs else jobs[id := NewRow(status, maxRetries, error, now)]
  }

  // ---------- Guards (the WHERE clauses; a comparison with NULL is not true) ----------

  predicate Visible(r: Row, now: Time) {
    r.state.Pending? && r.nextRunAt.Some? && r.nextRunAt.value <= now
  }

  predicate Owns(r: Row, w: WorkerId) {
    r.worker == w && r.state.Processing?
  }

  predicate Expired(r: Row, now: Time) {
    r.state.Processing? && r.lease.Some? && r.lease.value < now
  }

  predicate Reapable(r: Row, term: int, now: Time) {
    Expired(r, now) && r.claimTerm <= term
  }

  predicate CanRetry(r: Row) {
    r.retryCount < r.maxRetries
  }

  predicate Owned(jobs: Table, id: JobId, w: WorkerId) {
    id in jobs && Owns(jobs[id], w)
  }

  // ---------- SET clauses ----------

  function ClaimRow(r: Row, term: int, w: WorkerId, lease: Time, now: Time): Row {
    r.(state := Processing, startedAt := Some(now), worker := w,
       claimTerm := Max(r.claimTerm, term), lease := Some(now + lease))
  }

  function CompleteRow(r: Row, now: Time): Row {
    r.(state := Done, doneAt := Some(now), worker := "", lease := None)
  }

  /** retryDecision and doneAtDecision, shared by a reported failure and a stall. */
  function GiveBackRow(r: Row, error: string, next: Option<Time>, now: Time): Row {
    r.(state := if CanRetry(r) then Pending else Failed,
       retryCount := r.retryCount + 1,
       lastError := error, worker := "", lease := None,
       doneAt := if CanRetry(r) then None else Some(now),
       nextRunAt := next)
  }

  function FailRow(r: Row, error: string, base: Time, now: Time): Row {
    GiveBackRow(r, error, if CanRetry(r) then Some(now + base * Pow2(r.retryCount)) else r.nextRunAt, now)
  }

  function ReapRow(r: Row, now: Time): Row {
    GiveBackRow(r, "lease expired", Some(now), now)
  }

  function BeatRow(r: Row, lease: Time, now: Time): Row {
    r.(lease := Some(now + lease))
  }

  // ---------- Statements ----------

  function VisibleJobs(jobs: Table, now: Time): set<JobId> {
    set id | id in jobs && Visible(jobs[id], now)
  }

  function Claim(jobs: Table, id: JobId, term: int, w: WorkerId, lease: Time, now: Time): Table {
    if id in jobs && Visible(jobs[id], now) then jobs[id := ClaimRow(jobs[id], term, w, lease, now)] else jobs
  }

  function Complete(jobs: Table, id: JobId, w: WorkerId, now: Time): Table {
    if Owned(jobs, id, w) then jobs[id := CompleteRow(jobs[id], now)] else jobs
  }

  function Fail(jobs: Table, id: JobId, w: WorkerId, error: string, base: Time, now: Time): Table {
    if Owned(jobs, id, w) then jobs[id := FailRow(jobs[id], error, base, now)] else jobs
  }

  function Beat(jobs: Table, id: JobId, w: WorkerId, lease: Time, now: Time): Table {
    if Owned(jobs, id, w) then jobs[id := BeatRow(jobs[id], lease, now)] else jobs
  }

  function Released(jobs: Table, term: int, now: Time): set<JobId> {
    set id | id in jobs && Reapable(jobs[id], term, now)
  }

  function Sweep(jobs: Table, term: int, now: Time): Table {
    map id | id in jobs :: if Reapable(jobs[id], term, now) then ReapRow(jobs[id], now) else jobs[id]
  }

  // ---------- NextVisible ----------

  /** The pending rows' due times. */
  function DueTimes(jobs: Table): set<Time> {
    set id | id in jobs && jobs[id].state.Pending? && jobs[id].nextRunAt.Some? :: jobs[id].nextRunAt.value
  }

  predicate HasPending(jobs: Table) { exists id <- jobs :: jobs[id].state.Pending? }

  predicate IsLeast(t: Time, ts: set<Time>) { t in ts && forall u <- ts :: t <= u }

  lemma {:induction false} LeastExists(ts: set<Time>, x: Time)
    requires x in ts
    ensures exists t :: IsLeast(t, ts)
    decreases ts
  {
    if y :| y in ts && y < x {
      LeastExists(ts - {x}, y);
      var t :| IsLeast(t, ts - {x});
      assert forall u <- ts :: u == x || u in ts - {x};
      assert IsLeast(t, ts);
    } else {
      assert IsLeast(x, ts);
    }
  }

  // ---------- Startup migration ----------

  function MigrateRow(r: Row): Row {
    var r1 := if r.nextRunAt.None? then r.(nextRunAt := Some(r.createdAt)) else r;
    if r1.state.Processing? && r1.lease.None? then r1.(lease := Some(r1.createdAt)) else r1
  }

  function Migrate(jobs: Table): Table {
    map id | id in jobs :: MigrateRow(jobs[id])
  }

  // ---------- The row invariant ----------

  predicate RowInv(r: Row) {
    && (r.state.Processing? <==> r.worker != "")
    && (r.state.Processing? <==> r.lease.Some?)
    && (r.state.Processing? ==> r.startedAt.Some?)
    && (r.doneAt.Some? <==> r.state.Done? || r.state.Failed?)
    && r.nextRunAt.Some?
    && r.claimTerm >= 0
    && r.retryCount <= Budget(r) + 1
    && (r.state.Failed? <==> r.retryCount == Budget(r) + 1)
    && (r.state.Other? ==> r.retryCount == 0)
  }

  predicate TableInv(jobs: Table) {
    forall id <- jobs :: RowInv(jobs[id])
  }

  /** A freshly inserted row meets the invariant exactly when the client did not forge a lifecycle state. */
  lemma NewRowInvIff(status: string, maxRetries: int, error: string, now: Time)
    ensures RowInv(NewRow(status, maxRetries, error, now)) <==> CleanStatus(status)
  {}

  /** A job is claimable from its insertion on if its status is left out or says pending, and never otherwise. It
      may be retried three times unless the client said otherwise. */
  lemma NewJobIsReady(status: string, maxRetries: int, error: string, now: Time, t: Time)
    ensures Visible(NewRow(status, maxRetries, error, now), t) <==> (status == "" || status == "pending") && t >= now
    ensures Budget(NewRow(status, maxRetries, error, now)) == if maxRetries == 0 then 3 else Max(0, maxRetries)
  {}

  /** What the migration repairs. A row from before there were due times becomes due from its creation on, one from before
      there were leases runs out of its lease at its creation, and there is nothing left for a second run to do. */
  lemma MigrationRepairs(r: Row, t: Time, term: int)
    ensures MigrateRow(r).(nextRunAt := r.nextRunAt, lease := r.lease) == r
    ensures r.nextRunAt.Some? ==> MigrateRow(r).nextRunAt == r.nextRunAt
    ensures r.lease.Some? || !r.state.Processing? ==> MigrateRow(r).lease == r.lease
    ensures r.state.Pending? && r.nextRunAt.None? ==> (Visible(MigrateRow(r), t) <==> r.createdAt <= t)
    ensures r.state.Processing? && r.lease.None? ==>
      (Reapable(MigrateRow(r), term, t) <==> r.createdAt < t && r.claimTerm <= term)
    ensures MigrateRow(r).nextRunAt.Some? && MigrateRow(MigrateRow(r)) == MigrateRow(r)
  {}

  /** Rerunning the startup migration on a table in good order changes nothing. */
  lemma MigrateIsIdentity(jobs: Table)
    requires TableInv(jobs)
    ensures Migrate(jobs) == jobs
  {}
}
