/** What one claiming pass hands out, while other servers, other streams and the clock go on around it. */
module Pass {
  import opened Jobs
  import opened QueueMachine
  import opened Line
  import opened Heartbeat
  import opened Shift
  import Attempts

  /** A job handed to a worker: which attempt at it, and when. */
  datatype Handover = Handover(to: Waiter, id: JobId, attempt: nat, at: Time)

  /** From `s` to `later` one pass was claiming, under one term. */
  predicate InOnePass(p: Params, s: Shift, later: Shift)
    requires Continues(s, later)
  {
    && PostOf(p, later).mode.Serving? && PostOf(p, later).mode == PostOf(p, s).mode
    && (s != later ==> InOnePass(p, s, later.before))
  }

  function HandoverOf(x: Post, id: JobId): Handover
    requires CanDo(x, Served(id))
  {
    Handover(x.desk.line[0], id, x.q.jobs[id].retryCount, x.q.now)
  }

  /** Everything handed out between `s` and `later`, in order. */
  function HandedOut(p: Params, s: Shift, later: Shift): seq<Handover>
    requires Continues(s, later)
  {
    if s == later then []
    else
      HandedOut(p, s, later.before) +
      if later.deed.Served? && CanDo(PostOf(p, later.before), later.deed)
      then [HandoverOf(PostOf(p, later.before), later.deed.id)] else []
  }

  lemma {:induction false} BackgroundInPass(p: Params, s: Shift, b: Shift, later: Shift)
    requires LegalShift(p, later) && Continues(s, b) && Continues(b, later) && Background(b, later)
    requires InOnePass(p, s, b)
    ensures Continues(s, later) && InOnePass(p, s, later) && HandedOut(p, s, later) == HandedOut(p, s, b)
  {
    ContinuesAcross(s, b, later);
    if b != later {
      BackgroundInPass(p, s, b, later.before);
      BackgroundKeeps(p, b, later);
      LaterIsLonger(s, later.before);
    }
  }

  lemma PassGoesOn(p: Params, s: Shift, b: Shift, later: Shift)
    requires LegalShift(p, later) && Continues(s, b) && InOnePass(p, s, b)
    requires StepsTo(b, later) && later.deed.Served? && PostOf(p, later).mode == PostOf(p, b).mode
    ensures Continues(s, later) && InOnePass(p, s, later)
    ensures HandedOut(p, s, later) == HandedOut(p, s, b) + [HandoverOf(PostOf(p, later.before), later.deed.id)]
  {
    BackgroundInPass(p, s, b, later.before);
    LaterIsLonger(s, later.before);
  }

  lemma PassStops(p: Params, s: Shift, b: Shift, later: Shift)
    requires LegalShift(p, later) && Continues(s, b) && InOnePass(p, s, b) && StepsTo(b, later)
    ensures LegalShift(p, later.before) && Continues(s, later.before) && Continues(later.before, later)
    ensures InOnePass(p, s, later.before) && HandedOut(p, s, later.before) == HandedOut(p, s, b)
    ensures PostOf(p, later.before).desk.line == PostOf(p, b).desk.line
  {
    BackgroundInPass(p, s, b, later.before);
    BackgroundKeeps(p, b, later.before);
  }

  lemma PassMovesLine(p: Params, x: Post, d: Deed)
    requires CanDo(x, d) && x.mode.Serving? && After(p, x, d).mode == x.mode
    ensures d.Served? ==> x.desk.line != []
    ensures After(p, x, d).desk.line == if d.Served? then x.desk.line[1..] else x.desk.line
  {}

  /** First come, first served: a pass hands jobs to a prefix of the line, in the line's order, and leaves the rest
      of it alone. */
  lemma {:induction false} PassServesAPrefix(p: Params, s: Shift, later: Shift)
    requires LegalShift(p, later) && Continues(s, later) && InOnePass(p, s, later)
    ensures
      var line, hs := PostOf(p, s).desk.line, HandedOut(p, s, later);
      && |hs| <= |line| && PostOf(p, later).desk.line == line[|hs|..]
      && forall i | 0 <= i < |hs| :: hs[i].to == line[i]
  {
    if s != later {
      PassServesAPrefix(p, s, later.before);
      PassMovesLine(p, PostOf(p, later.before), later.deed);
    }
  }

  /** At some point of the pass the job was visible, and that moment's claim leased it to the worker and touched
      no other row. */
  predicate Granted(p: Params, s: Shift, later: Shift, h: Handover)
    requires Continues(s, later)
  {
    && s != later
    && var x, y := PostOf(p, later.before), PostOf(p, later);
       || Granted(p, s, later.before, h)
       || (&& x.mode.Serving? && h.id in x.q.jobs && Visible(x.q.jobs[h.id], h.at) && h.at == x.q.now
           && h.attempt == x.q.jobs[h.id].retryCount
           && y.q.jobs == x.q.jobs[h.id := ClaimRow(x.q.jobs[h.id], x.mode.term, h.to.worker, p.leaseFor, h.at)])
  }

  lemma {:induction false} HandoversAreGranted(p: Params, s: Shift, later: Shift)
    requires LegalShift(p, later) && Continues(s, later)
    ensures forall h <- HandedOut(p, s, later) :: Granted(p, s, later, h)
  {
    if s != later { HandoversAreGranted(p, s, later.before); }
  }

  // ---------- Attempts ----------

  /** The attempt is accounted for in the row: over and counted, or in hand. */
  predicate Counted(jobs: Table, h: Handover) {
    h.id in jobs && h.attempt + 1 <= jobs[h.id].retryCount + Attempts.InHand(jobs[h.id])
  }

  /** The deed's step of the queue, if it has one. */
  function EventOf(x: Post, d: Deed): Option<Event>
    requires CanDo(x, d)
  {
    if d.Elsewhere? || d.Message? || d.Enqueued? then Some(d.e)
    else if d.Served? then Some(Claiming(x.mode.term, x.desk.line[0].worker, d.id))
    else None
  }

  lemma DeedMovesQueue(p: Params, x: Post, d: Deed)
    requires CanDo(x, d)
    ensures
      match EventOf(x, d)
      case None => After(p, x, d).q == x.q
      case Some(e) => Enabled(x.q, e) && After(p, x, d).q == Next(p, x.q, e)
  {}

  lemma DeedKeepsCounted(p: Params, x: Post, d: Deed, h: Handover)
    requires QueueInv(x.q) && CanDo(x, d)
    ensures Counted(x.q.jobs, h) ==> Counted(After(p, x, d).q.jobs, h)
    ensures d.Served? ==> Counted(After(p, x, d).q.jobs, HandoverOf(x, d.id))
    ensures d.Served? && Counted(x.q.jobs, h) && h.id == d.id ==> h.attempt < HandoverOf(x, d.id).attempt
  {
    DeedMovesQueue(p, x, d);
    if EventOf(x, d).Some? {
      if h.id in x.q.jobs { Attempts.StepConserves(p, x.q, EventOf(x, d).value, h.id); }
      if d.Served? { Attempts.StepConserves(p, x.q, EventOf(x, d).value, d.id); }
    }
  }

  /** Later handovers of the same job are later attempts at it. */
  predicate DistinctAttempts(hs: seq<Handover>) {
    forall i, j | 0 <= i < j < |hs| :: hs[i].id == hs[j].id ==> hs[i].attempt < hs[j].attempt
  }

  /** No attempt is handed out twice in a pass, whatever lands between its claims: a job that comes up again
      was given back in the meantime, and counted. */
  lemma {:induction false} PassHandsOutDistinctAttempts(p: Params, s: Shift, later: Shift)
    requires LegalShift(p, later) && CleanShift(p, later) && Continues(s, later)
    ensures DistinctAttempts(HandedOut(p, s, later))
    ensures forall h <- HandedOut(p, s, later) :: Counted(PostOf(p, later).q.jobs, h)
  {
    if s != later {
      var b := later.before;
      EarlierIsClean(p, b, later);
      PassHandsOutDistinctAttempts(p, s, b);
      ShiftInv(p, b);
      forall h <- HandedOut(p, s, b) {
        DeedKeepsCounted(p, PostOf(p, b), later.deed, h);
      }
      if later.deed.Served? {
        DeedKeepsCounted(p, PostOf(p, b), later.deed, HandoverOf(PostOf(p, b), later.deed.id));
        forall i | 0 <= i < |HandedOut(p, s, b)| && HandedOut(p, s, b)[i].id == later.deed.id
          ensures HandedOut(p, s, b)[i].attempt < HandoverOf(PostOf(p, b), later.deed.id).attempt
        {
          assert Counted(PostOf(p, b).q.jobs, HandedOut(p, s, b)[i]);
          DeedKeepsCounted(p, PostOf(p, b), later.deed, HandedOut(p, s, b)[i]);
        }
      }
    }
  }

  // ---------- Jobs ----------

  /** No failure report and no sweep lands between `s` and `later`. */
  predicate NothingGivenBack(s: Shift, later: Shift)
    requires Continues(s, later)
  {
    s == later ||
    (&& NothingGivenBack(s, later.before)
     && (later.deed.Elsewhere? || later.deed.Message? ==> !later.deed.e.Failing? && !later.deed.e.Sweeping?))
  }

  /** Still the worker's own attempt, or finished by it. */
  predicate Kept(jobs: Table, h: Handover) {
    && h.id in jobs && jobs[h.id].retryCount == h.attempt
    && (Owns(jobs[h.id], h.to.worker) || jobs[h.id].state.Done?)
  }

  lemma DeedKeepsKept(p: Params, x: Post, d: Deed, h: Handover)
    requires TableInv(x.q.jobs) && CanDo(x, d) && Kept(x.q.jobs, h)
    requires d.Elsewhere? || d.Message? ==> !d.e.Failing? && !d.e.Sweeping?
    ensures Kept(After(p, x, d).q.jobs, h) && (d.Served? ==> d.id != h.id)
  {
    DeedMovesQueue(p, x, d);
    if EventOf(x, d) == Some(Restart) { MigrateIsIdentity(x.q.jobs); }
  }

  predicate DistinctJobs(hs: seq<Handover>) {
    forall i, j | 0 <= i < j < |hs| :: hs[i].id != hs[j].id
  }

  /** Unless something is given back meanwhile, a pass hands out one distinct job per worker served, and when it
      is over each of them is that worker's, or finished by it; claims, completions, heartbeats, inserts and
      elections by anybody may land in between. */
  lemma {:induction false} PassHandsOutDistinctJobs(p: Params, s: Shift, later: Shift)
    requires LegalShift(p, later) && CleanShift(p, later) && Continues(s, later) && NothingGivenBack(s, later)
    ensures DistinctJobs(HandedOut(p, s, later))
    ensures forall h <- HandedOut(p, s, later) :: Kept(PostOf(p, later).q.jobs, h)
  {
    if s != later {
      var b := later.before;
      EarlierIsClean(p, b, later);
      PassHandsOutDistinctJobs(p, s, b);
      ShiftInv(p, b);
      forall h <- HandedOut(p, s, b) {
        DeedKeepsKept(p, PostOf(p, b), later.deed, h);
      }
    }
  }

  // ---------- Channels ----------

  /** The channels between `s` and `later`: each worker served was given one job, its own, which is there still or
      was received already; nobody else was given anything. */
  predicate Delivered(p: Params, before: Desk, after: Desk, hs: seq<Handover>) {
    && after.accounts.Keys == before.accounts.Keys
    && (forall h <- hs ::
          && h.to in after.accounts && after.accounts[h.to].given == before.accounts[h.to].given + 1
          && (after.accounts[h.to].inbox == [] ||
              after.accounts[h.to].inbox == [Assigned(h.id, LeaseSeconds(p.leaseFor))]))
    && (forall v <- before.accounts ::
          (exists h <- hs :: h.to == v) || after.accounts[v].given == before.accounts[v].given)
  }

  lemma TakeKeepsDelivered(p: Params, before: Desk, after: Desk, hs: seq<Handover>, w: Waiter)
    requires Delivered(p, before, after, hs) && CanMove(after, Take(w))
    ensures Delivered(p, before, AfterMove(after, Take(w)), hs)
  {}

  lemma GiveKeepsDelivered(p: Params, before: Desk, after: Desk, hs: seq<Handover>, h: Handover)
    requires Delivered(p, before, after, hs) && CanMove(after, Give(Assigned(h.id, LeaseSeconds(p.leaseFor))))
    requires h.to == after.line[0] && forall g <- hs :: g.to != h.to
    ensures Delivered(p, before, AfterMove(after, Give(Assigned(h.id, LeaseSeconds(p.leaseFor)))), hs + [h])
  {
    forall v <- before.accounts
      ensures (exists g <- hs + [h] :: g.to == v) ||
              AfterMove(after, Give(Assigned(h.id, LeaseSeconds(p.leaseFor)))).accounts[v].given == before.accounts[v].given
    {
      if v == h.to { assert h in hs + [h]; }
      if g :| g in hs && g.to == v { assert g in hs + [h]; }
    }
  }

  lemma DeedKeepsDelivered(p: Params, before: Desk, x: Post, d: Deed, hs: seq<Handover>)
    requires CanDo(x, d) && x.mode.Serving? && After(p, x, d).mode == x.mode && Delivered(p, before, x.desk, hs)
    requires d.Served? ==> forall g <- hs :: g.to != x.desk.line[0]
    ensures Delivered(p, before, After(p, x, d).desk, hs + if d.Served? then [HandoverOf(x, d.id)] else [])
  {
    if d.Took? {
      TakeKeepsDelivered(p, before, x.desk, hs, d.w);
    } else if d.Served? {
      GiveKeepsDelivered(p, before, x.desk, hs, HandoverOf(x, d.id));
    }
    assert hs + [] == hs;
  }

  /** Whoever is first in line was not served in this pass yet. */
  lemma HeadIsUnserved(p: Params, s: Shift, later: Shift)
    requires LegalShift(p, later) && Continues(s, later) && InOnePass(p, s, later) && PostOf(p, later).desk.line != []
    ensures forall h <- HandedOut(p, s, later) :: h.to != PostOf(p, later).desk.line[0]
  {
    EarlierIsLegal(p, s, later);
    ShiftIsADay(p, s);
    PassServesAPrefix(p, s, later);
    assert PostOf(p, later).desk.line[0] == PostOf(p, s).desk.line[|HandedOut(p, s, later)|];
  }

  /** Every worker a pass serves finds exactly its own job in its channel, unless it has received it already. */
  lemma {:induction false} PassFillsOneChannelEach(p: Params, s: Shift, later: Shift)
    requires LegalShift(p, later) && Continues(s, later) && InOnePass(p, s, later)
    ensures Delivered(p, PostOf(p, s).desk, PostOf(p, later).desk, HandedOut(p, s, later))
  {
    if s != later {
      PassFillsOneChannelEach(p, s, later.before);
      if later.deed.Served? { HeadIsUnserved(p, s, later.before); }
      DeedKeepsDelivered(p, PostOf(p, s).desk, PostOf(p, later.before), later.deed, HandedOut(p, s, later.before));
    }
  }

  // ---------- A pass, all told ----------

  /** The claiming that began at `began` and ended at `ended` served a prefix of the line in order, each worker
      with a job visible at that moment and leased to it by a claim that touched nothing else; it filled each
      channel with its own worker's job; and no attempt, nor any job unless it was given back meanwhile, went
      out twice. */
  predicate WellServed(p: Params, began: Shift, ended: Shift, handed: seq<Handover>) {
    && Continues(began, ended) && InOnePass(p, began, ended) && handed == HandedOut(p, began, ended)
    && var line := PostOf(p, began).desk.line;
       && |handed| <= |line| && PostOf(p, ended).desk.line == line[|handed|..]
       && (forall i | 0 <= i < |handed| :: handed[i].to == line[i])
       && (forall h <- handed :: Granted(p, began, ended, h))
       && Delivered(p, PostOf(p, began).desk, PostOf(p, ended).desk, handed)
       && (CleanShift(p, ended) ==> DistinctAttempts(handed))
       && (CleanShift(p, ended) && NothingGivenBack(began, ended) ==>
             DistinctJobs(handed) && forall h <- handed :: Kept(PostOf(p, ended).q.jobs, h))
  }

  lemma PassesServeWell(p: Params, began: Shift, ended: Shift)
    requires LegalShift(p, ended) && Continues(began, ended) && InOnePass(p, began, ended)
    ensures WellServed(p, began, ended, HandedOut(p, began, ended))
  {
    PassServesAPrefix(p, began, ended);
    HandoversAreGranted(p, began, ended);
    PassFillsOneChannelEach(p, began, ended);
    if CleanShift(p, ended) {
      PassHandsOutDistinctAttempts(p, began, ended);
      if NothingGivenBack(began, ended) { PassHandsOutDistinctJobs(p, began, ended); }
    }
  }
}
