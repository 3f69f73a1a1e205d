/** The whole cluster: the jobs table and the leadership row in one database, any number of servers each
    running the election loop, and workers reporting to whichever server they reach.

    A cluster history projects onto a queue history in which a lease taken is a win, so everything proved
    for the queue under an abstract election holds for the leadership row in the database. */
module Cluster {
  import opened Jobs
  import opened QueueMachine
  import opened Election
  import Attempts
  import SimpleQueue

  datatype Cluster = Cluster(now: Time, jobs: Table, row: LeaderRow, nodes: map<NodeId, Node>)

  /** A vote in the election (time passing included); a statement any server runs on a client's or worker's
      behalf; a claim or sweep a server stamps with a term it won, now or long ago. */
  datatype Step =
    | Cast(v: Vote)
    | Served(e: Event)
    | Stamped(n: NodeId, e: Event)

  function JobView(c: Cluster): Queue { Queue(c.now, c.jobs, c.row.term) }

  function ElectView(c: Cluster): Elect { Elect(c.now, c.row, c.nodes) }

  predicate CanStep(c: Cluster, s: Step) {
    match s
    case Cast(v) => CanVote(ElectView(c), v)
    case Served(e) =>
      (e.Create? || e.Completing? || e.Failing? || e.Beating? || e.Restart?) && Enabled(JobView(c), e)
    case Stamped(n, e) =>
      && (e.Claiming? || e.Sweeping?)
      && n in c.nodes && e.term in c.nodes[n].won
      && (e.Claiming? ==> e.worker != "" && e.id in c.jobs && Visible(c.jobs[e.id], c.now))
  }

  function AfterStep(p: Params, c: Cluster, s: Step): Cluster
    requires CanStep(c, s)
  {
    match s
    case Cast(v) =>
      var s' := AfterVote(p.leaseFor, ElectView(c), v);
      Cluster(s'.now, c.jobs, s'.row, s'.nodes)
    case Served(e) => c.(jobs := Next(p, JobView(c), e).jobs)
    case Stamped(_, e) => c.(jobs := Next(p, JobView(c), e).jobs)
  }

  datatype History = Booted(start: Cluster) | Stepped(before: History, step: Step)

  function ClusterOf(p: Params, h: History): Cluster {
    match h
    case Booted(c) => c
    case Stepped(g, s) => if CanStep(ClusterOf(p, g), s) then AfterStep(p, ClusterOf(p, g), s) else ClusterOf(p, g)
  }

  predicate LegalHistory(p: Params, h: History) {
    match h
    case Booted(c) => c.now > EPOCH && c.jobs == map[] && c.row == SEED_ROW && c.nodes == map[]
    case Stepped(g, s) => LegalHistory(p, g) && CanStep(ClusterOf(p, g), s)
  }

  // ---------- Projections ----------

  function PollsOf(h: History): Polls {
    match h
    case Booted(c) => Opened(ElectView(c))
    case Stepped(g, s) => if s.Cast? then Voted(PollsOf(g), s.v) else PollsOf(g)
  }

  function RunOf(p: Params, h: History): Run {
    match h
    case Booted(c) => Begin(JobView(c))
    case Stepped(g, Cast(v)) =>
      if v.Elapse? then Then(RunOf(p, g), Tick(v.to))
      else if Takes(ElectView(ClusterOf(p, g)), v) then Then(RunOf(p, g), Winning(ClusterOf(p, g).row.term + 1))
      else RunOf(p, g)
    case Stepped(g, Served(e)) => Then(RunOf(p, g), e)
    case Stepped(g, Stamped(_, e)) => Then(RunOf(p, g), e)
  }

  lemma {:induction false} PollsProject(p: Params, h: History)
    requires LegalHistory(p, h)
    ensures LegalPolls(p.leaseFor, PollsOf(h))
    ensures ElectOf(p.leaseFor, PollsOf(h)) == ElectView(ClusterOf(p, h))
  {
    if h.Stepped? { PollsProject(p, h.before); }
  }

  /** The leadership row meets the abstract election's contract: terms only ever grow, and no server can
      stamp anything with a term above the highest one won. */
  lemma {:induction false} RunsProject(p: Params, h: History)
    requires LegalHistory(p, h)
    ensures Legal(p, RunOf(p, h)) && StateOf(p, RunOf(p, h)) == JobView(ClusterOf(p, h))
  {
    if h.Stepped? {
      RunsProject(p, h.before);
      PollsProject(p, h.before);
      ElectInvHolds(p.leaseFor, PollsOf(h.before));
      var c := ClusterOf(p, h.before);
      if h.step.Cast? {
        RowChanges(p.leaseFor, ElectView(c), h.step.v);
      } else if h.step.Stamped? {
        assert NodeInv(c.row, h.step.n, c.nodes[h.step.n]);
      }
    }
  }

  predicate CleanHistory(p: Params, h: History) { Clean(p, RunOf(p, h)) }

  // ---------- The cluster's guarantees ----------

  /** Any number of servers, deposed ones included, with lost replies and handovers at any moment: what the
      clients and workers see is the simple queue. */
  lemma {:induction false} ClusterIsASimpleQueue(p: Params, h: History)
    requires LegalHistory(p, h) && CleanHistory(p, h)
    ensures SimpleQueue.Simulated(p, RunOf(p, h))
    ensures StateOf(p, RunOf(p, h)) == JobView(ClusterOf(p, h))
  {
    RunsProject(p, h);
    SimpleQueue.RunsSimulateSimpleQueue(p, RunOf(p, h));
  }

  /** The fence never strands a job: no claim and no node is ahead of the row, so the sweep of the node that
      leads under the row's term releases every expired lease, those a deposed leader granted included. */
  lemma FenceNeverStrands(p: Params, h: History, n: NodeId)
    requires LegalHistory(p, h) && CleanHistory(p, h)
    requires n in ClusterOf(p, h).nodes && ClusterOf(p, h).nodes[n].isLead
    requires ClusterOf(p, h).nodes[n].term == ClusterOf(p, h).row.term
    ensures
      var c := ClusterOf(p, h);
      var sweep := Stamped(n, Sweeping(c.nodes[n].term));
      && (forall id <- c.jobs :: c.jobs[id].claimTerm <= c.row.term)
      && (forall m <- c.nodes, t <- c.nodes[m].won :: t <= c.row.term)
      && CanStep(c, sweep)
      && (forall id <- c.jobs :: !Expired(AfterStep(p, c, sweep).jobs[id], c.now))
  {
    RunsProject(p, h);
    PollsProject(p, h);
    ElectInvHolds(p.leaseFor, PollsOf(h));
    InvHolds(p, RunOf(p, h));
    var c := ClusterOf(p, h);
    assert NodeInv(c.row, n, c.nodes[n]);
    TopSweepStrandsNobody(p, RunOf(p, h));
  }

  /** Times any server handed the job out. */
  function Handouts(h: History, id: JobId): nat {
    match h
    case Booted(_) => 0
    case Stepped(g, s) => Handouts(g, id) + if s.Stamped? then Attempts.IsClaim(s.e, id) else 0
  }

  lemma {:induction false} HandoutsAreClaims(p: Params, h: History, id: JobId)
    requires LegalHistory(p, h)
    ensures Handouts(h, id) == Attempts.Claims(RunOf(p, h), id)
  {
    if h.Stepped? { HandoutsAreClaims(p, h.before, id); }
  }

  /** All servers together hand a job out at most max_retries + 1 times. */
  lemma ClusterConservesAttempts(p: Params, h: History, id: JobId)
    requires LegalHistory(p, h) && CleanHistory(p, h) && id in ClusterOf(p, h).jobs
    ensures
      var r := ClusterOf(p, h).jobs[id];
      Handouts(h, id) == r.retryCount + Attempts.InHand(r) <= Budget(r) + 1
  {
    RunsProject(p, h);
    HandoutsAreClaims(p, h, id);
    Attempts.AttemptsConserved(p, RunOf(p, h), id);
  }

  predicate BothBelieve(c: Cluster, m: NodeId, n: NodeId) {
    m in c.nodes && n in c.nodes && m != n && c.nodes[m].isLead && c.nodes[n].isLead
  }

  /** Split brain is real: two servers can believe they lead at the same moment. */
  lemma TwoMayBelieve()
    ensures exists h: History :: LegalHistory(Params(30, 1), h) && BothBelieve(ClusterOf(Params(30, 1), h), "a", "b")
  {
    var p := Params(30, 1);
    var h0 := Booted(Cluster(1, map[], SEED_ROW, map[]));
    var h1 := Stepped(h0, Cast(Join("a")));
    var h2 := Stepped(h1, Cast(Join("b")));
    var h3 := Stepped(h2, Cast(Campaigning("a", NoFault)));
    var h4 := Stepped(h3, Cast(BecomeLead("a")));
    assert ClusterOf(p, h4).nodes["a"].isLead && ClusterOf(p, h4).row == LeaderRow("a", 1, 31);
    var h5 := Stepped(h4, Cast(Elapse(32)));
    var h6 := Stepped(h5, Cast(Campaigning("b", NoFault)));
    assert ClusterOf(p, h5).nodes["b"].phase == Seeking;
    assert ClusterOf(p, h6).nodes["b"].phase == Elected(2);
    var h7 := Stepped(h6, Cast(BecomeLead("b")));
    assert BothBelieve(ClusterOf(p, h7), "a", "b");
    assert LegalHistory(p, h7);
  }
}
