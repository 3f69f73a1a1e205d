/** The Postgres store: two tables and the database's clock. Each method is one SQL statement, run
    atomically at a clock reading no earlier than the last one. `fault` says how its round trip goes. */
module Store {
  import opened Jobs
  import opened QueueMachine
  import opened Election

  datatype Reply<+T> = Ok(value: T) | LeaseLost | StoreError

  /** The columns a claim returns. */
  datatype Job = Job(id: JobId, retryCount: nat, maxRetries: int, lastError: string)

  class PostgresStore {
    var clock: Time
    var jobs: Table
    var leader: LeaderRow

    constructor (now: Time)
      ensures clock == now && jobs == map[] && leader == SEED_ROW
    {
      clock, jobs, leader := now, map[], SEED_ROW;
    }

    method Elapse()
      modifies this`clock
      ensures clock >= old(clock)
    {
      var d: nat :| true;
      clock := clock + d;
    }

    method CreateJob(id: JobId, status: string, maxRetries: int, error: string, fault: Fault) returns (r: Reply<()>)
      modifies this`clock, this`jobs
      ensures clock >= old(clock)
      ensures jobs == if fault.Dropped? then old(jobs) else Jobs.CreateJob(old(jobs), id, status, maxRetries, error, clock)
      ensures id in old(jobs) ==> jobs == old(jobs)
      ensures r.Ok? <==> fault.NoFault? && id !in old(jobs)
      ensures !r.LeaseLost?
    {
      Elapse();
      if fault.Dropped? { return StoreError; }
      r := if fault.NoFault? && id !in jobs then Ok(()) else StoreError;
      if id !in jobs {
        jobs := jobs[id := NewRow(status, maxRetries, error, clock)];
      }
    }

    /** Which visible row is taken is the database's choice: the query has no ORDER BY. */
    method DequeueJob(term: int, w: WorkerId, lease: Time, fault: Fault) returns (r: Reply<Option<Job>>)
      modifies this`clock, this`jobs
      ensures clock >= old(clock)
      ensures fault.Dropped? || VisibleJobs(old(jobs), clock) == {} ==> jobs == old(jobs)
      ensures !fault.Dropped? && VisibleJobs(old(jobs), clock) != {} ==>
        exists id :: id in VisibleJobs(old(jobs), clock) && jobs == Claim(old(jobs), id, term, w, lease, clock)
      ensures !fault.NoFault? ==> r == StoreError
      ensures fault.NoFault? ==> r.Ok? && (r.value.None? <==> VisibleJobs(old(jobs), clock) == {})
      ensures r.Ok? && r.value.Some? ==>
        var j := r.value.value;
        && j.id in VisibleJobs(old(jobs), clock)
        && jobs == Claim(old(jobs), j.id, term, w, lease, clock)
        && j.retryCount == old(jobs)[j.id].retryCount && j.maxRetries == old(jobs)[j.id].maxRetries
        && j.lastError == old(jobs)[j.id].lastError
    {
      Elapse();
      if fault.Dropped? { return StoreError; }
      var visible := VisibleJobs(jobs, clock);
      if visible == {} {
        return if fault.NoFault? then Ok(None) else StoreError;
      }
      var id :| id in visible;
      var row := jobs[id];
      jobs := jobs[id := ClaimRow(row, term, w, lease, clock)];
      r := if fault.NoFault? then Ok(Some(Job(id, row.retryCount, row.maxRetries, row.lastError))) else StoreError;
    }

    method Complete(id: JobId, w: WorkerId, fault: Fault) returns (r: Reply<()>)
      modifies this`clock, this`jobs
      ensures clock >= old(clock)
      ensures jobs == if fault.Dropped? then old(jobs) else Jobs.Complete(old(jobs), id, w, clock)
      ensures !Owned(old(jobs), id, w) ==> jobs == old(jobs)
      ensures Owned(old(jobs), id, w) && !fault.Dropped? ==>
        jobs == old(jobs)[id := jobs[id]] && jobs[id].state.Done? && jobs[id].doneAt == Some(clock)
      ensures !fault.NoFault? ==> r == StoreError
      ensures fault.NoFault? ==> r == if Owned(old(jobs), id, w) then Ok(()) else LeaseLost
    {
      Elapse();
      if fault.Dropped? { return StoreError; }
      var affected := Owned(jobs, id, w);
      if affected {
        jobs := jobs[id := CompleteRow(jobs[id], clock)];
      }
      r := if !fault.NoFault? then StoreError else if affected then Ok(()) else LeaseLost;
    }

    /** Reports whether the job was sent back for another attempt. */
    method FailJob(id: JobId, w: WorkerId, error: string, base: Time, fault: Fault) returns (r: Reply<bool>)
      modifies this`clock, this`jobs
      ensures clock >= old(clock)
      ensures jobs == if fault.Dropped? then old(jobs) else Jobs.Fail(old(jobs), id, w, error, base, clock)
      ensures !fault.NoFault? ==> r == StoreError
      ensures fault.NoFault? ==> (r.LeaseLost? <==> !Owned(old(jobs), id, w)) && !r.StoreError?
      ensures !Owned(old(jobs), id, w) ==> jobs == old(jobs)
      ensures Owned(old(jobs), id, w) && !fault.Dropped? ==>
        && jobs == old(jobs)[id := jobs[id]]
        && jobs[id].retryCount == old(jobs)[id].retryCount + 1 && jobs[id].lastError == error
        && (if CanRetry(old(jobs)[id]) then jobs[id].state.Pending? else jobs[id].state.Failed?)
      ensures r.Ok? ==> r.value == CanRetry(old(jobs)[id]) == jobs[id].state.Pending?
    {
      Elapse();
      if fault.Dropped? { return StoreError; }
      var affected := Owned(jobs, id, w);
      if affected {
        jobs := jobs[id := FailRow(jobs[id], error, base, clock)];
      }
      r := if !fault.NoFault? then StoreError
           else if affected then Ok(jobs[id].state.Pending?)
           else LeaseLost;
    }

    method HeartbeatJob(id: JobId, w: WorkerId, lease: Time, fault: Fault) returns (r: Reply<bool>)
      modifies this`clock, this`jobs
      ensures clock >= old(clock)
      ensures jobs == if fault.Dropped? then old(jobs) else Jobs.Beat(old(jobs), id, w, lease, clock)
      ensures !Owned(old(jobs), id, w) ==> jobs == old(jobs)
      ensures Owned(old(jobs), id, w) && !fault.Dropped? ==>
        jobs == old(jobs)[id := old(jobs)[id].(lease := Some(clock + lease))]
      ensures r == if fault.NoFault? then Ok(Owned(old(jobs), id, w)) else StoreError
    {
      Elapse();
      if fault.Dropped? { return StoreError; }
      var renewed := Owned(jobs, id, w);
      if renewed {
        jobs := jobs[id := BeatRow(jobs[id], lease, clock)];
      }
      r := if fault.NoFault? then Ok(renewed) else StoreError;
    }

    /** How long until the oldest pending job is due, and whether anything is pending at all. */
    method NextVisible(fault: Fault) returns (r: Reply<(Time, bool)>)
      modifies this`clock
      ensures clock >= old(clock)
      ensures r.Ok? <==> fault.NoFault?
      ensures !r.LeaseLost?
      ensures r.Ok? ==> r.value.1 == HasPending(jobs)
      ensures r.Ok? && DueTimes(jobs) != {} ==> IsLeast(clock + r.value.0, DueTimes(jobs))
      ensures r.Ok? && DueTimes(jobs) == {} ==> r.value.0 == 0
    {
      Elapse();
      if !fault.NoFault? { return StoreError; }
      var due := DueTimes(jobs);
      var wait := 0;
      if id :| id in jobs && jobs[id].state.Pending? && jobs[id].nextRunAt.Some? {
        LeastExists(due, jobs[id].nextRunAt.value);
        var t :| t in due && IsLeast(t, due);
        wait := t - clock;
      }
      r := Ok((wait, HasPending(jobs)));
    }

    /** Reports how many rows it released. */
    method ReapExpiredLeases(term: int, fault: Fault) returns (r: Reply<nat>)
      modifies this`clock, this`jobs
      ensures clock >= old(clock)
      ensures jobs == if fault.Dropped? then old(jobs) else Jobs.Sweep(old(jobs), term, clock)
      ensures r == if fault.NoFault? then Ok(|Released(old(jobs), term, clock)|) else StoreError
    {
      Elapse();
      if fault.Dropped? { return StoreError; }
      var released := Released(jobs, term, clock);
      jobs := map id | id in jobs :: if id in released then ReapRow(jobs[id], clock) else jobs[id];
      r := if fault.NoFault? then Ok(|released|) else StoreError;
    }

    /** The term won, or None while somebody's lease is live. */
    method Campaign(n: NodeId, lease: Time, fault: Fault) returns (r: Reply<Option<int>>)
      modifies this`clock, this`leader
      ensures clock >= old(clock)
      ensures leader == if fault.Dropped? then old(leader) else Election.Campaign(old(leader), n, lease, clock)
      ensures !fault.NoFault? ==> r == StoreError
      ensures fault.NoFault? ==>
        r == Ok(if CanCampaign(old(leader), clock) then Some(leader.term) else None)
    {
      Elapse();
      if fault.Dropped? { return StoreError; }
      var won := leader.expires < clock;
      if won {
        leader := LeaderRow(n, leader.term + 1, clock + lease);
      }
      r := if !fault.NoFault? then StoreError else if won then Ok(Some(leader.term)) else Ok(None);
    }

    method RenewLeadership(n: NodeId, lease: Time, fault: Fault) returns (r: Reply<Option<int>>)
      modifies this`clock, this`leader
      ensures clock >= old(clock)
      ensures leader == if fault.Dropped? then old(leader) else Election.Renew(old(leader), n, lease, clock)
      ensures !fault.NoFault? ==> r == StoreError
      ensures fault.NoFault? ==>
        r == Ok(if CanRenew(old(leader), n, clock) then Some(leader.term) else None)
    {
      Elapse();
      if fault.Dropped? { return StoreError; }
      var held := leader.holder == n && leader.expires >= clock;
      if held {
        leader := leader.(expires := clock + lease);
      }
      r := if !fault.NoFault? then StoreError else if held then Ok(Some(leader.term)) else Ok(None);
    }

    method ResignLeadership(n: NodeId, fault: Fault) returns (r: Reply<()>)
      modifies this`clock, this`leader
      ensures clock >= old(clock)
      ensures leader == if fault.Dropped? then old(leader) else Election.Resign(old(leader), n)
      ensures r == if fault.NoFault? then Ok(()) else StoreError
    {
      Elapse();
      if fault.Dropped? { return StoreError; }
      if leader.holder == n {
        leader := LeaderRow("", leader.term, EPOCH);
      }
      r := if fault.NoFault? then Ok(()) else StoreError;
    }
  }
}
