/** What the columns of a row say about its past, over every run. */
module Columns {
  import opened Jobs
  import opened QueueMachine

  /** When the job was last claimed, and for whom. */
  function LastClaim(p: Params, run: Run, id: JobId): Option<(Time, WorkerId)> {
    match run
    case Begin(_) => None
    case Then(r, e) => if e.Claiming? && e.id == id then Some((StateOf(p, r).now, e.worker)) else LastClaim(p, r, id)
  }

  /** The step claims the job or renews its lease. */
  predicate Touches(q: Queue, e: Event, id: JobId) {
    || (e.Claiming? && e.id == id)
    || (e.Beating? && e.id == id && !e.fault.Dropped? && Owned(q.jobs, id, e.worker))
  }

  function LastTouch(p: Params, run: Run, id: JobId): Option<Time> {
    match run
    case Begin(_) => None
    case Then(r, e) => if Touches(StateOf(p, r), e, id) then Some(StateOf(p, r).now) else LastTouch(p, r, id)
  }

  /** What the step leaves behind as the job's last error, if anything: the client's own text on insertion, the
      worker's on a report that landed, and a fixed one when a sweep took the job. */
  function Complaint(q: Queue, e: Event, id: JobId): Option<string> {
    if e.Create? && e.cid == id && id !in q.jobs then Some(e.error)
    else if e.Failing? && e.id == id && !e.fault.Dropped? && Owned(q.jobs, id, e.worker) then Some(e.error)
    else if e.Sweeping? && id in q.jobs && Expired(q.jobs[id], q.now) && q.jobs[id].claimTerm <= e.term
    then Some("lease expired")
    else None
  }

  function LastComplaint(p: Params, run: Run, id: JobId): string {
    match run
    case Begin(_) => ""
    case Then(r, e) =>
      var c := Complaint(StateOf(p, r), e, id);
      if c.Some? then c.value else LastComplaint(p, r, id)
  }

  /** The moment from which the step makes the job due, if it does: insertion and sweep at once, a failure sent back
      after its backoff. */
  function MadeDue(p: Params, q: Queue, e: Event, id: JobId): Option<Time> {
    if e.Failing? then
      if e.id == id && !e.fault.Dropped? && Owned(q.jobs, id, e.worker) && q.jobs[id].retryCount < q.jobs[id].maxRetries
      then Some(q.now + p.base * Pow2(q.jobs[id].retryCount)) else None
    else if Complaint(q, e, id).Some? then Some(q.now)
    else None
  }

  function DueSince(p: Params, run: Run, id: JobId): Option<Time> {
    match run
    case Begin(_) => None
    case Then(r, e) =>
      var due := MadeDue(p, StateOf(p, r), e, id);
      if due.Some? then due else DueSince(p, r, id)
  }

  predicate Over(jobs: Table, id: JobId) { id in jobs && (jobs[id].state.Done? || jobs[id].state.Failed?) }

  /** The moment of the step that finished the job, or sent it to the dead letters. */
  function OverSince(p: Params, run: Run, id: JobId): Option<Time> {
    match run
    case Begin(_) => None
    case Then(r, e) =>
      if !Over(StateOf(p, r).jobs, id) && Over(StateOf(p, run).jobs, id) then Some(StateOf(p, r).now)
      else OverSince(p, r, id)
  }

  /** Whom the row names, and since when. */
  predicate TellsOwner(p: Params, r: Row, claim: Option<(Time, WorkerId)>, touch: Option<Time>) {
    && r.startedAt == (if claim.Some? then Some(claim.value.0) else None)
    && (r.state.Processing? ==> claim.Some? && touch.Some? && r.worker == claim.value.1
                                && r.lease == Some(touch.value + p.leaseFor))
    && (!r.state.Processing? ==> r.worker == "" && r.lease.None?)
  }

  lemma StepTellsOwner(p: Params, q: Queue, e: Event, id: JobId, claim: Option<(Time, WorkerId)>, touch: Option<Time>)
    requires Enabled(q, e) && id in q.jobs && RowInv(q.jobs[id]) && TellsOwner(p, q.jobs[id], claim, touch)
    ensures id in Next(p, q, e).jobs
    ensures TellsOwner(p, Next(p, q, e).jobs[id], if e.Claiming? && e.id == id then Some((q.now, e.worker)) else claim,
                       if Touches(q, e, id) then Some(q.now) else touch)
  {}

  lemma StepTellsComplaint(p: Params, q: Queue, e: Event, id: JobId)
    requires id in q.jobs
    ensures id in Next(p, q, e).jobs
    ensures
      var c := Complaint(q, e, id);
      Next(p, q, e).jobs[id].lastError == if c.Some? then c.value else q.jobs[id].lastError
  {}

  lemma StepTellsEnd(p: Params, q: Queue, e: Event, id: JobId)
    requires Enabled(q, e) && id in q.jobs && RowInv(q.jobs[id])
    ensures id in Next(p, q, e).jobs
    ensures Next(p, q, e).jobs[id].doneAt ==
            if !Over(q.jobs, id) && Over(Next(p, q, e).jobs, id) then Some(q.now) else q.jobs[id].doneAt
  {}

  lemma StepTellsDue(p: Params, q: Queue, e: Event, id: JobId)
    requires id in q.jobs && q.jobs[id].nextRunAt.Some?
    ensures id in Next(p, q, e).jobs
    ensures
      var due := MadeDue(p, q, e, id);
      Next(p, q, e).jobs[id].nextRunAt == if due.Some? then due else q.jobs[id].nextRunAt
  {}

  lemma StepTellsNothing(p: Params, q: Queue, e: Event, id: JobId)
    requires Enabled(q, e) && !Forges(q, e) && id !in q.jobs
    ensures !Touches(q, e, id) && (e.Claiming? ==> e.id != id) && !Over(Next(p, q, e).jobs, id)
    ensures id !in Next(p, q, e).jobs ==> Complaint(q, e, id).None? && MadeDue(p, q, e, id).None?
    ensures id in Next(p, q, e).jobs ==>
      && TellsOwner(p, Next(p, q, e).jobs[id], None, None) && Next(p, q, e).jobs[id].doneAt.None?
      && Complaint(q, e, id) == Some(Next(p, q, e).jobs[id].lastError)
      && MadeDue(p, q, e, id) == Next(p, q, e).jobs[id].nextRunAt == Some(q.now)
  {}

  /** The row is what the run so far says it is. */
  predicate Tells(p: Params, run: Run, id: JobId) {
    if id !in StateOf(p, run).jobs then
      && LastClaim(p, run, id).None? && LastTouch(p, run, id).None?
      && LastComplaint(p, run, id) == "" && OverSince(p, run, id).None? && DueSince(p, run, id).None?
    else
      && TellsOwner(p, StateOf(p, run).jobs[id], LastClaim(p, run, id), LastTouch(p, run, id))
      && StateOf(p, run).jobs[id].lastError == LastComplaint(p, run, id)
      && StateOf(p, run).jobs[id].doneAt == OverSince(p, run, id)
      && StateOf(p, run).jobs[id].nextRunAt == DueSince(p, run, id)
  }

  lemma StepTells(p: Params, run: Run, e: Event, id: JobId)
    requires Tells(p, run, id) && Enabled(StateOf(p, run), e) && !Forges(StateOf(p, run), e)
    requires id in StateOf(p, run).jobs ==> RowInv(StateOf(p, run).jobs[id])
    ensures Tells(p, Then(run, e), id)
  {
    var q := StateOf(p, run);
    assert StateOf(p, Then(run, e)) == Next(p, q, e);
    if id in q.jobs {
      StepTellsOwner(p, q, e, id, LastClaim(p, run, id), LastTouch(p, run, id));
      StepTellsComplaint(p, q, e, id);
      StepTellsEnd(p, q, e, id);
      StepTellsDue(p, q, e, id);
    } else {
      StepTellsNothing(p, q, e, id);
    }
  }

  /** In every run started_at is the time of the last claim, worker and lease are the last claimant's and one lease
      past the last claim or renewal while the job is being worked on and empty otherwise, last_error is the
      last complaint, dead letters included, done_at is the moment the job was over, and next_run_at is when it
      was last made due. */
  lemma {:induction false} ColumnsTellThePast(p: Params, run: Run, id: JobId)
    requires Legal(p, run) && Clean(p, run)
    ensures Tells(p, run, id)
  {
    if run.Then? {
      ColumnsTellThePast(p, run.before, id);
      InvHolds(p, run.before);
      StepTells(p, run.before, run.event, id);
    }
  }

  /** A statement touches only the row it is about; only a sweep and a restart are about many. */
  lemma OtherRowsStay(p: Params, q: Queue, e: Event, other: JobId)
    requires TableInv(q.jobs) && other in q.jobs
    requires e.Claiming? || e.Completing? || e.Failing? || e.Beating? ==> e.id != other
    requires e.Sweeping? ==> !Reapable(q.jobs[other], e.term, q.now)
    ensures other in Next(p, q, e).jobs && Next(p, q, e).jobs[other] == q.jobs[other]
  {
    if e.Restart? { MigrateIsIdentity(q.jobs); }
  }

  /** The budget and the birthday of a job are what its insertion said, ever after, whoever inserts it again. */
  lemma {:induction false} InsertionIsForGood(p: Params, run: Run, later: Run, made: Event)
    requires Legal(p, later) && made.Create? && made.cid !in StateOf(p, run).jobs
    requires Extends(Then(run, made), later)
    ensures made.cid in StateOf(p, later).jobs
    ensures
      var r := StateOf(p, later).jobs[made.cid];
      r.createdAt == StateOf(p, run).now && r.maxRetries == if made.maxRetries == 0 then 3 else made.maxRetries
  {
    if Then(run, made) != later { InsertionIsForGood(p, run, later.before, made); }
  }
}
