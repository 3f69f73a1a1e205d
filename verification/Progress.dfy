/** No reachable state of the cluster is a dead end for any job. */
module Progress {
  import opened Jobs
  import opened QueueMachine
  import opened Election
  import opened Cluster

  /** `later` continues `h` by zero or more steps. */
  predicate Follows(h: History, later: History) {
    h == later || (later.Stepped? && Follows(h, later.before))
  }

  /** The step is node `n`'s, worker `w`'s completion, or the clock's. */
  predicate StepOf(s: Step, n: NodeId, w: WorkerId) {
    match s
    case Cast(v) => v.Elapse? || v.n == n
    case Served(e) => e.Completing? && e.worker == w
    case Stamped(m, e) => m == n && (e.Claiming? ==> e.worker == w)
  }

  /** Nobody but `n` and `w` was heard of between `h` and `later`. */
  predicate OnlyThey(h: History, later: History, n: NodeId, w: WorkerId)
    requires Follows(h, later)
  {
    h == later || (StepOf(later.step, n, w) && OnlyThey(h, later.before, n, w))
  }

  /** `later` is a legal way on from `h` that needs nobody but `n` and `w`. */
  ghost predicate WayOn(p: Params, h: History, later: History, n: NodeId, w: WorkerId) {
    Follows(h, later) && LegalHistory(p, later) && CleanHistory(p, later) && OnlyThey(h, later, n, w)
  }

  lemma GoOn(p: Params, h: History, at: History, n: NodeId, w: WorkerId, s: Step) returns (later: History)
    requires WayOn(p, h, at, n, w) && CanStep(ClusterOf(p, at), s) && StepOf(s, n, w)
    ensures WayOn(p, h, later, n, w) && ClusterOf(p, later) == AfterStep(p, ClusterOf(p, at), s)
  {
    later := Stepped(at, s);
  }

  /** A server nobody has heard of joins after every lease in sight has run out, and leads. */
  lemma NewcomerTakesOver(p: Params, h: History, n: NodeId, w: WorkerId, when: Time) returns (later: History)
    requires LegalHistory(p, h) && CleanHistory(p, h) && n != "" && n !in ClusterOf(p, h).nodes
    requires when >= ClusterOf(p, h).now && when > ClusterOf(p, h).row.expires
    ensures WayOn(p, h, later, n, w)
    ensures
      var c, c' := ClusterOf(p, h), ClusterOf(p, later);
      && c'.now == when && c'.jobs == c.jobs && c'.row == LeaderRow(n, c.row.term + 1, when + p.leaseFor)
      && n in c'.nodes && c'.nodes[n].isLead && c'.nodes[n].term == c'.row.term && c'.row.term in c'.nodes[n].won
  {
    var h1 := GoOn(p, h, h, n, w, Cast(Elapse(when)));
    var h2 := GoOn(p, h, h1, n, w, Cast(Join(n)));
    var h3 := GoOn(p, h, h2, n, w, Cast(Campaigning(n, NoFault)));
    assert ClusterOf(p, h3).nodes[n].phase.Elected?;
    later := GoOn(p, h, h3, n, w, Cast(BecomeLead(n)));
  }

  /** The moment from which nothing stands in the way: the leader's lease and the job's have run out, and a
      backoff is over. */
  function WaitFor(c: Cluster, id: JobId): Time
    requires id in c.jobs
  {
    var r := c.jobs[id];
    Max(Max(c.now, c.row.expires + 1),
        if r.lease.Some? then r.lease.value + 1 else if r.nextRunAt.Some? then r.nextRunAt.value else 0)
  }

  /** The leader hands a visible job to the worker, who finishes it. */
  lemma LeaderServes(p: Params, h: History, at: History, id: JobId, n: NodeId, w: WorkerId) returns (later: History)
    requires WayOn(p, h, at, n, w) && w != "" && id in ClusterOf(p, at).jobs
    requires n in ClusterOf(p, at).nodes && ClusterOf(p, at).row.term in ClusterOf(p, at).nodes[n].won
    requires Visible(ClusterOf(p, at).jobs[id], ClusterOf(p, at).now)
    ensures WayOn(p, h, later, n, w)
    ensures id in ClusterOf(p, later).jobs && ClusterOf(p, later).jobs[id].state.Done?
    ensures ClusterOf(p, later) == ClusterOf(p, at).(jobs := ClusterOf(p, later).jobs)
  {
    var c := ClusterOf(p, at);
    var h1 := GoOn(p, h, at, n, w, Stamped(n, Claiming(c.row.term, w, id)));
    assert Owned(ClusterOf(p, h1).jobs, id, w);
    later := GoOn(p, h, h1, n, w, Served(Completing(w, id, NoFault)));
  }

  /** Whatever a history has done to a job, and whoever holds it: if every server and worker there ever was falls
      silent, one new server and any one worker can still bring it to an end. When they do, the server leads under
      the row's own term, with its lease just taken. */
  lemma NoJobIsEverStuck(p: Params, h: History, id: JobId, n: NodeId, w: WorkerId) returns (later: History)
    requires LegalHistory(p, h) && CleanHistory(p, h) && id in ClusterOf(p, h).jobs
    requires ClusterOf(p, h).jobs[id].state.Pending? || ClusterOf(p, h).jobs[id].state.Processing?
    requires n != "" && n !in ClusterOf(p, h).nodes && w != ""
    ensures WayOn(p, h, later, n, w)
    ensures
      var c, c' := ClusterOf(p, h), ClusterOf(p, later);
      && id in c'.jobs && (c'.jobs[id].state.Done? || c'.jobs[id].state.Failed?)
      && (c'.jobs[id].state.Failed? ==> c.jobs[id].state.Processing? && !CanRetry(c.jobs[id]))
      && c'.now == WaitFor(c, id) && c'.row == LeaderRow(n, c.row.term + 1, c'.now + p.leaseFor)
      && n in c'.nodes && c'.nodes[n].isLead && c'.nodes[n].term == c'.row.term
  {
    RunsProject(p, h);
    InvHolds(p, RunOf(p, h));
    var c := ClusterOf(p, h);
    assert RowFits(c.jobs[id], c.row.term, c.now);
    var h1 := NewcomerTakesOver(p, h, n, w, WaitFor(c, id));
    if c.jobs[id].state.Pending? {
      later := LeaderServes(p, h, h1, id, n, w);
      return;
    }
    var h2 := GoOn(p, h, h1, n, w, Stamped(n, Sweeping(c.row.term + 1)));
    assert Reapable(c.jobs[id], c.row.term + 1, WaitFor(c, id));
    later := h2;
    if ClusterOf(p, h2).jobs[id].state.Pending? {
      later := LeaderServes(p, h, h2, id, n, w);
    }
  }
}
