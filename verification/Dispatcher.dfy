/** The dispatcher as imperative code: a first-come line of free workers, a pass that claims a job for each, and
    a timer that must not let a delayed retry sleep past its time while somebody waits for work.

    Every method notes what it did in a shift (see Shift), so whatever is proved of all shifts holds of this
    object. What others do meanwhile is a script: between any two of its statements, anybody may run theirs. */
module Dispatcher {
  import opened Jobs
  import opened QueueMachine
  import opened Store
  import opened Line
  import opened Timer
  import opened Shift
  import opened Pass
  import opened Leadership
  import opened Stream
  import opened Replies
  import opened Heartbeat

  /** How a pass ended: not this server's to make; a claim or the timer query failed in the store; a send
      found the channel full and blocked, with the lock held; shutting down; or it ran to its end. */
  datatype PassEnd = NotLeading | ClaimFailed | Blocked | ArmFailed | ShuttingDown | Settled

  /** Something that happens on another goroutine or another server. */
  datatype Noise = Statement(e: Event) | Receipt(w: Waiter)

  /** The statement can run on this table; the clock and the election are not statements on it. */
  predicate CanRun(jobs: Table, now: Time, e: Event) {
    match e
    case Tick(_) => false
    case Winning(_) => false
    case Claiming(_, w, id) => w != "" && id in jobs && Visible(jobs[id], now)
    case Completing(w, _, _) => w != ""
    case Failing(w, _, _, _) => w != ""
    case Beating(w, _, _) => w != ""
    case _ => true
  }

  /** One round of a pass: what others do before the claim, and how the claim's own round trip fares. */
  datatype Round = Round(noise: seq<Noise>, fault: Fault)

  /** What goes on during a whole pass: a round per claim, and one more for the timer query. */
  datatype Plan = Plan(rounds: seq<Round>, last: Round)

  function RoundAt(script: seq<Round>, i: nat): Round {
    if i < |script| then script[i] else Round([], NoFault)
  }

  /** Nothing goes wrong in the store during the pass. */
  predicate Faultless(plan: Plan) {
    (forall r <- plan.rounds :: r.fault.NoFault?) && plan.last.fault.NoFault?
  }

  /** A pass has a reason for ending as it did: it is skipped exactly when this server does not believe it leads, it
      fails only on a store error, and so a leader's pass without one is settled or blocked. */
  predicate Justified(end: PassEnd, isLead: bool, plan: Plan) {
    && !end.ShuttingDown?
    && (end.NotLeading? <==> !isLead)
    && (end.ClaimFailed? ==> exists r <- plan.rounds :: !r.fault.NoFault?)
    && (end.ArmFailed? ==> !plan.last.fault.NoFault?)
    && (isLead && Faultless(plan) ==> end.Settled? || end.Blocked?)
  }

  /** The first `n` rounds go well. */
  predicate NoFaultBefore(script: seq<Round>, n: nat) {
    n > 0 ==> NoFaultBefore(script, n - 1) && RoundAt(script, n - 1).fault.NoFault?
  }

  lemma RoundIsOnPlan(plan: Plan, n: nat)
    ensures RoundAt(plan.rounds, n).fault.NoFault? || exists r <- plan.rounds :: !r.fault.NoFault?
  {}

  /** What is left of a line served from the front. */
  predicate SuffixOf(rest: seq<Waiter>, line: seq<Waiter>) {
    |rest| <= |line| && rest == line[|line| - |rest|..]
  }

  function AtTime(x: Post, t: Time): Post { x.(q := x.q.(now := t)) }

  class Dispatcher {
    const store: PostgresStore
    const lead: Leadership
    const p: Params
    var line: seq<Waiter>
    var inbox: map<Waiter, seq<Assigned>>  // each stream's delivery channel, capacity one
    var timer: Option<Time>                // when the timer fires; None once it has
    var shutDown: bool
    ghost var shift: Shift                 // everything that happened so far

    ghost function Here(): Post
      reads this`shift
    {
      PostOf(p, shift)
    }

    /** The fields and the store are where the shift says they are. */
    ghost predicate Stands(mode: Mode)
      reads this`line, this`inbox, this`timer, this`shift, store`clock, store`jobs
    {
      && LegalShift(p, shift)
      && Here().mode == mode && Here().timer == timer && Here().desk.line == line
      && Here().q.now == store.clock && Here().q.jobs == store.jobs
      && Here().desk.accounts.Keys == inbox.Keys
      && forall v <- inbox :: Here().desk.accounts[v].inbox == inbox[v]
    }

    /** Nobody holds the lock. */
    ghost predicate Valid()
      reads this`line, this`inbox, this`timer, this`shift, store`clock, store`jobs
    {
      Stands(Idle)
    }

    /** A server starts on whatever queue it finds. */
    constructor (store: PostgresStore, lead: Leadership, p: Params, ghost past: Run)
      requires Legal(p, past) && StateOf(p, past).now == store.clock && StateOf(p, past).jobs == store.jobs
      ensures this.store == store && this.lead == lead && this.p == p
      ensures Valid() && line == [] && inbox == map[] && timer.None? && !shutDown && shift == Start(past)
    {
      this.store, this.lead, this.p := store, lead, p;
      line, inbox, timer, shutDown, shift := [], map[], None, false, Start(past);
    }

    ghost method Note(d: Deed)
      requires LegalShift(p, shift) && CanDo(Here(), d)
      modifies this`shift
      ensures shift == Noted(old(shift), d) && LegalShift(p, shift) && Here() == After(p, old(Here()), d)
      ensures Continues(old(shift), shift) && (!d.Registered? ==> MannersKept(p, old(shift), shift))
    {
      DeedKeepsManners(p, shift, d);
      shift := Noted(shift, d);
    }

    /** The shift's clock catches up with the database's. */
    ghost method NoteTime()
      requires LegalShift(p, shift) && Here().q.now <= store.clock
      modifies this`shift
      ensures LegalShift(p, shift)
      ensures Continues(old(shift), shift) && Background(old(shift), shift)
      ensures Here() == AtTime(old(Here()), store.clock) && MannersKept(p, old(shift), shift)
      ensures DayOf(p, shift) == DayOf(p, old(shift))
    {
      Note(Elsewhere(Tick(store.clock)));
    }

    /** The clock moves on, and then something happens. */
    ghost method NoteNext(d: Deed)
      requires LegalShift(p, shift) && Here().q.now <= store.clock && CanDo(AtTime(Here(), store.clock), d)
      modifies this`shift
      ensures LegalShift(p, shift) && StepsTo(old(shift), shift) && shift.deed == d
      ensures PostOf(p, shift.before) == AtTime(old(Here()), store.clock)
      ensures Here() == After(p, AtTime(old(Here()), store.clock), d)
      ensures !d.Registered? ==> MannersKept(p, old(shift), shift)
    {
      NoteTime();
      Note(d);
    }

    /** A claim failed for this server; the job it may have claimed unheard stays with the worker. */
    ghost method NoteFailedClaim(lost: Option<Event>)
      requires LegalShift(p, shift) && Here().mode.Serving? && Here().q.now <= store.clock
      requires lost.Some? ==> Enabled(AtTime(Here(), store.clock).q, lost.value)
      modifies this`shift
      ensures LegalShift(p, shift) && StepsTo(old(shift), shift) && shift.deed.GaveUp?
      ensures MannersKept(p, old(shift), shift)
      ensures Here() == AtTime(old(Here()), store.clock).(mode := Idle, q :=
        if lost.Some? then Next(p, AtTime(old(Here()), store.clock).q, lost.value) else AtTime(old(Here()), store.clock).q)
    {
      NoteTime();
      if lost.Some? { Note(Elsewhere(lost.value)); }
      Note(GaveUp);
    }

    /** Somebody stamps this term, so it has been won. */
    ghost method NoteWon(term: int)
      requires LegalShift(p, shift)
      modifies this`shift
      ensures LegalShift(p, shift) && Continues(old(shift), shift) && Background(old(shift), shift)
      ensures Here() == old(Here()).(q := old(Here()).q.(top := Max(old(Here()).q.top, term)))
      ensures MannersKept(p, old(shift), shift)
    {
      if term > Here().q.top { Note(Elsewhere(Winning(term))); }
    }

    /** Somebody else's statement, at the database's present moment. */
    ghost method NoteForeign(e: Event)
      requires LegalShift(p, shift) && Here().q.now <= store.clock && CanRun(Here().q.jobs, store.clock, e)
      modifies this`shift
      ensures LegalShift(p, shift) && Continues(old(shift), shift) && Background(old(shift), shift)
      ensures Here().q.now == store.clock && Here() == old(Here()).(q := Here().q)
      ensures Here().q.jobs == Next(p, Queue(store.clock, old(Here()).q.jobs, 0), e).jobs
    {
      NoteTime();
      ghost var s1 := shift;
      NoteWon(if e.Claiming? || e.Sweeping? then e.term else 0);
      BackgroundAcross(old(shift), s1, shift);
      Note(Elsewhere(e));
    }

    method RunForeign(e: Event, ghost mode: Mode)
      requires Stands(mode)
      modifies this`shift, store`clock, store`jobs
      ensures Stands(mode) && store.clock >= old(store.clock)
      ensures Continues(old(shift), shift) && Background(old(shift), shift)
    {
      store.Elapse();
      if CanRun(store.jobs, store.clock, e) {
        NoteForeign(e);
        store.jobs := Next(p, Queue(store.clock, store.jobs, 0), e).jobs;
      } else {
        NoteTime();
      }
    }

    /** A stream receives what is in its channel. */
    method Take(w: Waiter, ghost mode: Mode) returns (job: Assigned)
      requires Stands(mode) && w in inbox && inbox[w] != []
      modifies this`inbox, this`shift
      ensures Stands(mode) && job == old(inbox)[w][0] && inbox == old(inbox)[w := old(inbox)[w][1..]]
      ensures shift == Noted(old(shift), Took(w)) && Continues(old(shift), shift) && Background(old(shift), shift)
    {
      job := inbox[w][0];
      Note(Took(w));
      inbox := inbox[w := inbox[w][1..]];
    }

    method Meanwhile(noise: seq<Noise>, ghost mode: Mode)
      requires Stands(mode)
      modifies this`inbox, this`shift, store`clock, store`jobs
      ensures Stands(mode) && store.clock >= old(store.clock)
      ensures Continues(old(shift), shift) && Background(old(shift), shift)
    {
      for i := 0 to |noise|
        invariant Stands(mode) && store.clock >= old(store.clock)
        invariant Continues(old(shift), shift) && Background(old(shift), shift)
      {
        ghost var s := shift;
        match noise[i] {
          case Statement(e) => RunForeign(e, mode);
          case Receipt(w) => if w in inbox && inbox[w] != [] { var _ := Take(w, mode); }
        }
        BackgroundAcross(old(shift), s, shift);
      }
    }

    /** Arms the timer for the oldest pending job: exactly then, or MIN_ARM from now if that is later. With nobody
        in line, or nothing pending, it is left alone. */
    method ArmLocked(fault: Fault) returns (ok: bool)
      requires Stands(Arming)
      modifies this`timer, this`shift, store`clock
      ensures Valid() && store.clock >= old(store.clock) && Continues(old(shift), shift)
      ensures MannersKept(p, old(shift), shift)
      ensures ok <==> line == [] || fault.NoFault?
      ensures line == [] || !HasPending(store.jobs) || !ok ==> timer == old(timer)
      ensures ok ==> Covered(line, store.jobs, timer, store.clock)
      ensures ok && line != [] && DueTimes(store.jobs) != {} ==>
        && timer.Some? && VisibleJobs(store.jobs, timer.value) != {}
        && forall t :: IsLeast(t, DueTimes(store.jobs)) ==> timer.value == Max(store.clock + 100_000_000, t)
    {
      if line == [] {
        Note(Armed(0));
        return true;
      }
      var r := store.NextVisible(fault);
      if !r.Ok? {
        NoteNext(GaveUp);
        return false;
      }
      var (wait, pending) := r.value;
      ArmingCovers(p, AtTime(Here(), store.clock), store.clock + wait);
      NoteNext(Armed(store.clock + wait));
      if pending {
        timer := Some(store.clock + Max(wait, MIN_ARM));
      }
      ok := true;
    }

    /** Tries to serve the first worker in line. Unless `end` says how that ended the pass, one visible job
        is claimed for it, it leaves the line, and the job is in its channel. */
    method ServeFirst(term: int, fault: Fault) returns (end: Option<PassEnd>, h: Handover)
      requires Stands(Serving(term)) && line != []
      modifies this`line, this`inbox, this`shift, store`clock, store`jobs
      ensures LegalShift(p, shift) && store.clock >= old(store.clock) && MannersKept(p, old(shift), shift)
      ensures end.None? || end == Some(Settled) || end == Some(ClaimFailed) || end == Some(Blocked)
      ensures end.None? ==>
        && Stands(Serving(term)) && StepsTo(old(shift), shift) && shift.deed == Served(h.id)
        && line == old(line)[1..] && h == HandoverOf(PostOf(p, shift.before), h.id)
      ensures end == Some(Settled) ==>
        && Stands(Serving(term)) && Continues(old(shift), shift) && Background(old(shift), shift)
        && CanDo(Here(), Dried)
      ensures end == Some(ClaimFailed) ==> Valid() && StepsTo(old(shift), shift) && line == old(line)
      ensures end == Some(Blocked) ==> StepsTo(old(shift), shift) && Here().mode.Stuck? && line == old(line)[1..]
      ensures end == Some(ClaimFailed) <==> !fault.NoFault?
      ensures Uncrowded(DayOf(p, old(shift))) ==> end != Some(Blocked)
    {
      ghost var x := Here();
      HeadCanBeServed(p, shift);
      var w := line[0];
      ghost var jobs0 := store.jobs;
      var r := store.DequeueJob(term, w.worker, p.leaseFor, fault);
      h := Handover(w, "", 0, store.clock);
      if !r.Ok? {
        ghost var lost: Option<Event> := None;
        if id :| !fault.Dropped? && id in VisibleJobs(jobs0, store.clock) &&
                 store.jobs == Claim(jobs0, id, term, w.worker, p.leaseFor, store.clock) {
          lost := Some(Claiming(term, w.worker, id));
        }
        NoteFailedClaim(lost);
        return Some(ClaimFailed), h;
      }
      if r.value.None? {
        NoteTime();
        return Some(Settled), h;
      }
      h := Handover(w, r.value.value.id, r.value.value.retryCount, store.clock);
      NoteNext(Served(h.id));
      line := line[1..];
      if inbox[w] != [] { return Some(Blocked), h; }
      inbox := inbox[w := [Assigned(h.id, LeaseSeconds(p.leaseFor))]];
      return None, h;
    }

    /** One round: whatever others do first, then a try at serving the first worker in line. */
    method ServeNext(term: int, round: Round) returns (end: Option<PassEnd>, h: Handover)
      requires Stands(Serving(term)) && line != []
      modifies this`line, this`inbox, this`shift, store`clock, store`jobs
      ensures LegalShift(p, shift) && store.clock >= old(store.clock) && MannersKept(p, old(shift), shift)
      ensures end.None? || end == Some(Settled) || end == Some(ClaimFailed) || end == Some(Blocked)
      ensures end.None? ==>
        && Stands(Serving(term)) && StepsTo(old(shift), shift) && shift.deed == Served(h.id)
        && line == old(line)[1..] && h == HandoverOf(PostOf(p, shift.before), h.id)
      ensures end == Some(Settled) ==>
        && Stands(Serving(term)) && Continues(old(shift), shift) && Background(old(shift), shift)
        && CanDo(Here(), Dried)
      ensures end == Some(ClaimFailed) ==> Valid() && StepsTo(old(shift), shift) && line == old(line)
      ensures end == Some(Blocked) ==> StepsTo(old(shift), shift) && Here().mode.Stuck? && line == old(line)[1..]
      ensures end == Some(ClaimFailed) <==> !round.fault.NoFault?
      ensures Uncrowded(DayOf(p, old(shift))) ==> end != Some(Blocked)
    {
      Meanwhile(round.noise, Serving(term));
      ghost var s := shift;
      BackgroundKeeps(p, old(shift), s);
      end, h := ServeFirst(term, round.fault);
      if end == Some(Settled) {
        BackgroundAcross(old(shift), s, shift);
      } else {
        BackgroundThenStep(old(shift), s, shift);
      }
    }

    /** The claiming half of a pass: first come, first served, until the line is empty or nothing is visible.
        `ended` is where the claiming ended. */
    method ServeLine(term: int, script: seq<Round>) returns (end: PassEnd, handed: seq<Handover>, ghost ended: Shift)
      requires Stands(Serving(term))
      modifies this`line, this`inbox, this`shift, store`clock, store`jobs
      ensures LegalShift(p, shift) && store.clock >= old(store.clock) && MannersKept(p, old(shift), shift)
      ensures end.Settled? || end.ClaimFailed? || end.Blocked?
      ensures Continues(old(shift), ended) && Continues(ended, shift) && LegalShift(p, ended)
      ensures InOnePass(p, old(shift), ended) && handed == HandedOut(p, old(shift), ended)
      ensures end.Settled? ==> Stands(Serving(term)) && shift == ended && CanDo(Here(), Dried)
      ensures end.ClaimFailed? ==> Valid()
      ensures end.Blocked? ==> PostOf(p, ended).desk.line != [] && line == PostOf(p, ended).desk.line[1..]
      ensures !end.Blocked? ==> line == PostOf(p, ended).desk.line
      ensures NoFaultBefore(script, |handed|)
      ensures end.ClaimFailed? <==> PostOf(p, ended).desk.line != [] && !RoundAt(script, |handed|).fault.NoFault?
      ensures Uncrowded(DayOf(p, old(shift))) ==> !end.Blocked?
    {
      handed := [];
      ghost var s0 := shift;
      var i := 0;
      while line != []
        invariant i == |handed| && NoFaultBefore(script, i)
        invariant Stands(Serving(term)) && store.clock >= old(store.clock) && MannersKept(p, s0, shift)
        invariant Continues(s0, shift) && InOnePass(p, s0, shift) && handed == HandedOut(p, s0, shift)
        decreases |line|
      {
        ghost var s1 := shift;
        var stop, h := ServeNext(term, RoundAt(script, i));
        if stop == Some(Settled) {
          BackgroundInPass(p, s0, s1, shift);
          return Settled, handed, shift;
        }
        if stop.Some? {
          PassStops(p, s0, s1, shift);
          return stop.value, handed, shift.before;
        }
        PassGoesOn(p, s0, s1, shift);
        handed := handed + [h];
        i := i + 1;
      }
      return Settled, handed, shift;
    }

    /** Serves the line under this reign's term. The claiming lies between `began` and `ended`. */
    method ServeAsLeader(script: seq<Round>)
      returns (end: PassEnd, handed: seq<Handover>, ghost began: Shift, ghost ended: Shift)
      requires Stands(Passing)
      modifies this`line, this`inbox, this`shift, store`clock, store`jobs
      ensures LegalShift(p, shift) && store.clock >= old(store.clock) && MannersKept(p, old(shift), shift)
      ensures end.Settled? || end.ClaimFailed? || end.Blocked?
      ensures Continues(old(shift), began) && Continues(ended, shift) && Continues(old(shift), shift)
      ensures PostOf(p, began).mode == Serving(lead.term) && PostOf(p, began).desk == old(Here()).desk
      ensures WellServed(p, began, ended, handed)
      ensures end.Settled? ==> Stands(Serving(lead.term)) && shift == ended && CanDo(Here(), Dried)
      ensures end.ClaimFailed? ==> Valid()
      ensures |handed| + (if end.Blocked? then 1 else 0) <= |old(line)|
      ensures line == old(line)[|handed| + (if end.Blocked? then 1 else 0)..]
      ensures NoFaultBefore(script, |handed|)
      ensures end.ClaimFailed? <==> |handed| < |old(line)| && !RoundAt(script, |handed|).fault.NoFault?
      ensures Uncrowded(DayOf(p, old(shift))) ==> !end.Blocked?
    {
      NoteWon(lead.term);
      ghost var s := shift;
      Note(Led(lead.term));
      began := shift;
      ContinuesAcross(old(shift), s, began);
      end, handed, ended := ServeLine(lead.term, script);
      ContinuesAcross(began, ended, shift);
      ContinuesAcross(old(shift), began, shift);
      PassesServeWell(p, began, ended);
    }

    /** The end of a pass with nothing left to claim: arm the timer. */
    method FinishPass(last: Round) returns (ok: bool)
      requires Here().mode.Serving? && Stands(Here().mode) && CanDo(Here(), Dried)
      modifies this`inbox, this`timer, this`shift, store`clock, store`jobs
      ensures Valid() && store.clock >= old(store.clock)
      ensures Continues(old(shift), shift) && MannersKept(p, old(shift), shift)
      ensures Dries(old(shift), shift) && (ok <==> line == [] || last.fault.NoFault?)
      ensures ok ==> Covered(line, store.jobs, timer, store.clock)
      ensures !ok ==> timer == old(timer)
    {
      LaterIsLonger(shift, shift);
      Note(Dried);
      ghost var s := shift;
      Meanwhile(last.noise, Arming);
      BackgroundKeeps(p, s, shift);
      DriesAcross(old(shift), s, shift);
      s := shift;
      ok := ArmLocked(last.fault);
      DriesAcross(old(shift), s, shift);
    }

    /** A whole pass: nothing unless this server believes it leads; otherwise serve the line under one term,
        then arm the timer. It stops only at an empty line or with nothing visible. */
    method PushLocked(plan: Plan)
      returns (end: PassEnd, handed: seq<Handover>, ghost began: Shift, ghost ended: Shift)
      requires Stands(Passing)
      modifies this`line, this`inbox, this`timer, this`shift, store`clock, store`jobs
      ensures LegalShift(p, shift) && Continues(old(shift), shift) && store.clock >= old(store.clock)
      ensures !end.Blocked? ==> Valid()
      ensures !end.ShuttingDown? && (end.NotLeading? <==> !lead.isLead)
      ensures end.NotLeading? ==>
        && handed == [] && shift == Noted(old(shift), GaveUp) && inbox == old(inbox) && store.jobs == old(store.jobs)
      ensures !end.NotLeading? ==>
        && Continues(old(shift), began) && Continues(ended, shift) && WellServed(p, began, ended, handed)
        && PostOf(p, began).mode == Serving(lead.term) && PostOf(p, began).desk == old(Here()).desk
      ensures |handed| + (if end.Blocked? then 1 else 0) <= |old(line)|
      ensures line == old(line)[|handed| + (if end.Blocked? then 1 else 0)..]
      ensures lead.isLead ==>
        && NoFaultBefore(plan.rounds, |handed|)
        && (end.ClaimFailed? <==> |handed| < |old(line)| && !RoundAt(plan.rounds, |handed|).fault.NoFault?)
        && (end.Settled? || end.ArmFailed? ==> (end.ArmFailed? <==> line != [] && !plan.last.fault.NoFault?))
      ensures Justified(end, lead.isLead, plan)
      ensures end.Settled? || end.ArmFailed? ==> CanDo(PostOf(p, ended), Dried) && Dries(old(shift), shift)
      ensures end.Settled? ==> Covered(line, store.jobs, timer, store.clock)
      ensures !end.Settled? ==> timer == old(timer)
      ensures Uncrowded(DayOf(p, old(shift))) ==> !end.Blocked?
      ensures MannersKept(p, old(shift), shift)
    {
      if !lead.isLead {
        Note(GaveUp);
        return NotLeading, [], shift, shift;
      }
      end, handed, began, ended := ServeAsLeader(plan.rounds);
      RoundIsOnPlan(plan, |handed|);
      if end.Settled? {
        var ok := FinishPass(plan.last);
        end := if ok then Settled else ArmFailed;
        DriesAcross(old(shift), ended, shift);
      }
    }

    /** A pass, as far as those who ask for one are concerned. */
    method PushFor(plan: Plan) returns (end: PassEnd)
      requires Stands(Passing)
      modifies this`line, this`inbox, this`timer, this`shift, store`clock, store`jobs
      ensures LegalShift(p, shift) && Continues(old(shift), shift) && store.clock >= old(store.clock)
      ensures !end.Blocked? ==> Valid()
      ensures Justified(end, lead.isLead, plan)
      ensures end.NotLeading? ==> line == old(line) && inbox == old(inbox) && store.jobs == old(store.jobs)
      ensures SuffixOf(line, old(line)) && (end.Settled? ==> Dries(old(shift), shift))
      ensures end.Settled? ==> Covered(line, store.jobs, timer, store.clock)
      ensures !end.Settled? ==> timer == old(timer)
      ensures MannersKept(p, old(shift), shift) && (Uncrowded(DayOf(p, old(shift))) ==> !end.Blocked?)
    {
      var e, _, _, _ := PushLocked(plan);
      end := e;
    }

    ghost method NoteRegistered(w: Waiter)
      requires LegalShift(p, shift) && CanDo(Here(), Registered(w))
      modifies this`shift
      ensures shift == Noted(old(shift), Registered(w)) && LegalShift(p, shift)
      ensures Continues(old(shift), shift) && Here() == After(p, old(Here()), Registered(w))
      ensures Uncrowded(DayOf(p, old(shift))) && !Crowds(old(Here()).desk, Free(w)) ==> Uncrowded(DayOf(p, shift))
      ensures Disciplined(DayOf(p, old(shift))) && Owes(DayOf(p, old(shift)), w) ==>
        Uncrowded(DayOf(p, shift)) && Disciplined(DayOf(p, shift))
    {
      DeedKeepsManners(p, shift, Registered(w));
      Note(Registered(w));
      if Disciplined(DayOf(p, shift)) {
        ShiftIsADay(p, shift);
        DisciplineNeverCrowds(DayOf(p, shift));
      }
    }

    /** A worker whose message freed it registers again. In line already, it is ignored, and nothing is pushed. The
        pass blocks only if it is let in line with a job in its channel, or the line was crowded before. */
    method Register(w: Waiter, plan: Plan) returns (end: Option<PassEnd>)
      requires Valid() && w in Here().freed
      modifies this`line, this`inbox, this`timer, this`shift, store`clock, store`jobs
      ensures LegalShift(p, shift) && Continues(old(shift), shift) && store.clock >= old(store.clock)
      ensures end != Some(Blocked) ==> Valid()
      ensures Continues(Noted(old(shift), Registered(w)), shift) && (end.None? <==> InLine(old(line), w.worker))
      ensures end.None? ==>
        && shift == Noted(old(shift), Registered(w)) && line == old(line) && inbox == old(inbox) && timer == old(timer)
        && store.jobs == old(store.jobs) && store.clock == old(store.clock)
      ensures end.Some? ==> SuffixOf(line, old(line) + [w])
      ensures end == Some(NotLeading) ==>
        line == old(line) + [w] && inbox == old(inbox) && store.jobs == old(store.jobs)
      ensures end.Some? ==> Justified(end.value, lead.isLead, plan)
      ensures end == Some(Settled) ==> Dries(old(shift), shift)
      ensures end == Some(Settled) ==> Covered(line, store.jobs, timer, store.clock)
      ensures end != Some(Settled) ==> timer == old(timer)
      ensures Uncrowded(DayOf(p, old(shift))) && !Crowds(old(Here()).desk, Free(w)) ==>
        end != Some(Blocked) && Uncrowded(DayOf(p, shift))
      ensures Disciplined(DayOf(p, old(shift))) && Owes(DayOf(p, old(shift)), w) ==>
        end != Some(Blocked) && Disciplined(DayOf(p, shift))
    {
      PostInvHolds(p, shift);
      NoteRegistered(w);
      ghost var s := shift;
      if InLine(line, w.worker) { return None; }
      line := line + [w];
      var e := PushFor(plan);
      DriesAcross(old(shift), s, shift);
      end := Some(e);
    }

    /** A stream opens. It is turned away without a name, or by a server that does not believe it leads. */
    method Admit(w: Waiter, plan: Plan) returns (admitted: bool, end: Option<PassEnd>)
      requires Valid() && w !in inbox
      modifies this`line, this`inbox, this`timer, this`shift, store`clock, store`jobs
      ensures LegalShift(p, shift) && Continues(old(shift), shift) && store.clock >= old(store.clock)
      ensures end != Some(Blocked) ==> Valid()
      ensures admitted <==> w.worker != "" && lead.isLead
      ensures !admitted ==> end.None? && shift == old(shift)
      ensures admitted ==> Continues(Noted(old(shift), Admitted(w)), shift) && (end.None? <==> InLine(old(line), w.worker))
      ensures if end.Some? then SuffixOf(line, old(line) + [w]) else line == old(line)
      ensures end.None? ==> inbox == if admitted then old(inbox)[w := []] else old(inbox)
      ensures end.Some? ==> Justified(end.value, lead.isLead, plan)
      ensures end == Some(Settled) ==> Dries(old(shift), shift)
      ensures end == Some(Settled) ==> Covered(line, store.jobs, timer, store.clock)
      ensures end != Some(Settled) ==> timer == old(timer)
      ensures MannersKept(p, old(shift), shift) && (Uncrowded(DayOf(p, old(shift))) ==> end != Some(Blocked))
    {
      if w.worker == "" || !lead.isLead { return false, None; }
      admitted := true;
      Note(Admitted(w));
      ghost var s := shift;
      inbox := inbox[w := []];
      if InLine(line, w.worker) { return true, None; }
      line := line + [w];
      var e := PushFor(plan);
      DriesAcross(old(shift), s, shift);
      end := Some(e);
    }

    /** A stream ended: its worker leaves the line, and a registration it still owed will never come. */
    method Forget(w: Waiter)
      requires Valid() && w in inbox
      modifies this`line, this`shift
      ensures Valid() && shift == Noted(old(shift), Left(w)) && MannersKept(p, old(shift), shift)
      ensures line == Leave(old(line), w.worker) && !InLine(line, w.worker)
      ensures !InLine(old(line), w.worker) ==> line == old(line)
      ensures forall k | 0 <= k < |old(line)| && old(line)[k].worker == w.worker ::
        line == old(line)[..k] + old(line)[k + 1..]
      ensures Here().freed == old(Here()).freed - {w}
    {
      ShiftIsADay(p, shift);
      Note(Left(w));
      LeaveDropsOne(line, w.worker);
      assert forall k | 0 <= k < |line| && line[k].worker == w.worker :: FirstAt(line, w.worker, k);
      line := Leave(line, w.worker);
    }

    /** The pass of an enqueue, or of the timer, unless the server is shutting down. */
    method PushUnlessDown(plan: Plan) returns (end: PassEnd)
      requires Stands(Passing)
      modifies this`line, this`inbox, this`timer, this`shift, store`clock, store`jobs
      ensures LegalShift(p, shift) && Continues(old(shift), shift) && store.clock >= old(store.clock)
      ensures !end.Blocked? ==> Valid()
      ensures if shutDown then end.ShuttingDown? else Justified(end, lead.isLead, plan)
      ensures end.ShuttingDown? || end.NotLeading? ==>
        line == old(line) && inbox == old(inbox) && store.jobs == old(store.jobs)
      ensures SuffixOf(line, old(line)) && (end.Settled? ==> Dries(old(shift), shift))
      ensures end.Settled? ==> Covered(line, store.jobs, timer, store.clock)
      ensures !end.Settled? ==> timer == old(timer)
      ensures MannersKept(p, old(shift), shift) && (Uncrowded(DayOf(p, old(shift))) ==> !end.Blocked?)
    {
      if shutDown {
        Note(GaveUp);
        return ShuttingDown;
      }
      end := PushFor(plan);
    }

    /** The push an enqueue on this server owes. */
    method Push(plan: Plan) returns (end: PassEnd)
      requires Valid() && Here().pushes > 0
      modifies this`line, this`inbox, this`timer, this`shift, store`clock, store`jobs
      ensures LegalShift(p, shift) && Continues(old(shift), shift) && store.clock >= old(store.clock)
      ensures !end.Blocked? ==> Valid()
      ensures Continues(Noted(old(shift), Pushed), shift)
      ensures if shutDown then end.ShuttingDown? else Justified(end, lead.isLead, plan)
      ensures end.ShuttingDown? || end.NotLeading? ==>
        line == old(line) && inbox == old(inbox) && store.jobs == old(store.jobs)
      ensures SuffixOf(line, old(line)) && (end.Settled? ==> Dries(old(shift), shift))
      ensures end.Settled? ==> Covered(line, store.jobs, timer, store.clock)
      ensures !end.Settled? ==> timer == old(timer)
      ensures MannersKept(p, old(shift), shift) && (Uncrowded(DayOf(p, old(shift))) ==> !end.Blocked?)
    {
      Note(Pushed);
      ghost var s := shift;
      end := PushUnlessDown(plan);
      DriesAcross(old(shift), s, shift);
    }

    /** The timer fires: from here on it is not set, until a pass arms it again. */
    method Fire(plan: Plan) returns (end: PassEnd)
      requires Valid() && timer.Some? && timer.value <= store.clock
      modifies this`line, this`inbox, this`timer, this`shift, store`clock, store`jobs
      ensures LegalShift(p, shift) && Continues(old(shift), shift) && store.clock >= old(store.clock)
      ensures !end.Blocked? ==> Valid()
      ensures Continues(Noted(old(shift), Fired), shift)
      ensures if shutDown then end.ShuttingDown? else Justified(end, lead.isLead, plan)
      ensures end.ShuttingDown? || end.NotLeading? ==>
        line == old(line) && inbox == old(inbox) && store.jobs == old(store.jobs)
      ensures SuffixOf(line, old(line)) && (end.Settled? ==> Dries(old(shift), shift))
      ensures end.Settled? ==> Covered(line, store.jobs, timer, store.clock)
      ensures !end.Settled? ==> timer.None?
      ensures MannersKept(p, old(shift), shift) && (Uncrowded(DayOf(p, old(shift))) ==> !end.Blocked?)
    {
      Note(Fired);
      ghost var s := shift;
      timer := None;
      end := PushUnlessDown(plan);
      DriesAcross(old(shift), s, shift);
    }

    /** Enqueue on this server: store the job, let others do what they will, then push. If the insert's reply is
        lost the job is there and nothing pushes for it. `stored` and `ready` are the shift after the insert and
        before the push. */
    method Enqueue(id: JobId, status: string, maxRetries: int, error: string, fault: Fault, noise: seq<Noise>, plan: Plan)
      returns (ok: bool, end: Option<PassEnd>, ghost stored: Shift, ghost ready: Shift)
      requires Valid()
      modifies this`line, this`inbox, this`timer, this`shift, store`clock, store`jobs
      ensures LegalShift(p, shift) && Continues(old(shift), shift) && store.clock >= old(store.clock)
      ensures end != Some(Blocked) ==> Valid()
      ensures ok <==> fault.NoFault? && id !in old(store.jobs)
      ensures !ok ==> end.None? && line == old(line) && Background(old(shift), shift)
      ensures ok ==>
        && end.Some? && (if shutDown then end.value.ShuttingDown? else Justified(end.value, lead.isLead, plan))
        && StepsTo(old(shift), stored) && stored.deed == Enqueued(Create(id, status, maxRetries, error))
        && PostOf(p, stored.before).q.jobs == old(store.jobs)
        && Continues(stored, ready) && Background(stored, ready) && Continues(Noted(ready, Pushed), shift)
      ensures ok && end != Some(Blocked) ==> id in store.jobs
      ensures SuffixOf(line, old(line)) && (end == Some(Settled) ==> Dries(old(shift), shift))
      ensures ok && end == Some(Settled) ==> Covered(line, store.jobs, timer, store.clock)
      ensures end != Some(Settled) ==> timer == old(timer)
      ensures MannersKept(p, old(shift), shift) && (Uncrowded(DayOf(p, old(shift))) ==> end != Some(Blocked))
    {
      ghost var e := Create(id, status, maxRetries, error);
      var r := store.CreateJob(id, status, maxRetries, error, fault);
      if !r.Ok? {
        NoteInsertUnheard(if fault.Dropped? then None else Some(e));
        return false, None, shift, shift;
      }
      NoteNext(Enqueued(e));
      stored := shift;
      Meanwhile(noise, Idle);
      ready := shift;
      BackgroundKeeps(p, stored, ready);
      var pe := Push(plan);
      DriesAcross(stored, ready, shift);
      DriesAcross(old(shift), stored, shift);
      JobsStay(p, stored, shift, id);
      ok, end := true, Some(pe);
    }

    ghost method NoteInsertUnheard(e: Option<Event>)
      requires LegalShift(p, shift) && Here().q.now <= store.clock && (e.Some? ==> e.value.Create?)
      modifies this`shift
      ensures LegalShift(p, shift) && Continues(old(shift), shift) && Background(old(shift), shift)
      ensures MannersKept(p, old(shift), shift)
      ensures Here() == (if e.Some? then AtTime(old(Here()), store.clock).(q := Next(p, AtTime(old(Here()), store.clock).q, e.value))
                         else AtTime(old(Here()), store.clock))
    {
      NoteTime();
      if e.Some? { Note(Elsewhere(e.value)); }
    }

    ghost method NoteAnswer(w: Waiter, msg: WorkerMessage, fault: Fault)
      requires LegalShift(p, shift) && Here().mode.Idle? && Here().q.now <= store.clock
      requires w in Here().desk.accounts && w !in Here().freed
      modifies this`shift
      ensures LegalShift(p, shift) && Continues(old(shift), shift) && MannersKept(p, old(shift), shift)
      ensures DayOf(p, shift) == DayOf(p, old(shift))
      ensures EventFor(w.worker, msg, fault).None? ==> Background(old(shift), shift)
      ensures EventFor(w.worker, msg, fault).Some? ==>
        && StepsTo(old(shift), shift) && shift.deed == Message(w, EventFor(w.worker, msg, fault).value)
        && PostOf(p, shift.before) == AtTime(old(Here()), store.clock)
      ensures
        var x, e := AtTime(old(Here()), store.clock), EventFor(w.worker, msg, fault);
        Here() == if e.None? then x else
          x.(q := Next(p, x.q, e.value), freed := x.freed + if Frees(x.q, e.value) then {w} else {})
    {
      PostInvHolds(p, shift);
      NoteTime();
      if EventFor(w.worker, msg, fault).Some? { Note(Message(w, EventFor(w.worker, msg, fault).value)); }
    }

    /** The first half of a message: it reaches the store, and the reply is settled. */
    method Hear(w: Waiter, msg: WorkerMessage, fault: Fault) returns (reply: Option<ServerMessage>, free: bool)
      requires Valid() && w in inbox && w !in Here().freed
      modifies this`shift, store`clock, store`jobs
      ensures Valid() && Continues(old(shift), shift) && store.clock >= old(store.clock)
      ensures DayOf(p, shift) == DayOf(p, old(shift)) && (free ==> w in Here().freed)
      ensures msg.Hello? || msg.Empty? ==> reply.None? && !free && Background(old(shift), shift)
      ensures !msg.Hello? && !msg.Empty? ==>
        && StepsTo(old(shift), shift) && PostOf(p, shift.before).q.jobs == old(store.jobs)
        && Heard(p, PostOf(p, shift.before).q, Here().q.jobs, w.worker, msg, fault, reply, free)
      ensures
        var e := EventFor(w.worker, msg, fault);
        && (e.None? ==> reply.None? && !free && Background(old(shift), shift))
        && (e.Some? ==>
              && StepsTo(old(shift), shift) && shift.deed == Message(w, e.value)
              && free == Frees(PostOf(p, shift.before).q, e.value) && (!free ==> reply.None?)
              && (IsReport(e.value) ==> reply.Some? && reply.value.Result?
                                        && reply.value.outcome == Verdict(PostOf(p, shift.before).q, e.value)))
    {
      reply, free := Answer(store, p, w.worker, msg, fault);
      NoteAnswer(w, msg, fault);
    }

    /** One message of a worker's stream: answer it, and put the worker back in line if that freed it. `told` is
        the shift once the message reached the store, `ready` the moment before the registration. */
    method OnMessage(w: Waiter, msg: WorkerMessage, fault: Fault, noise: seq<Noise>, plan: Plan)
      returns (reply: Option<ServerMessage>, end: Option<PassEnd>, ghost told: Shift, ghost ready: Shift)
      requires Valid() && w in inbox && w !in Here().freed
      modifies this`line, this`inbox, this`timer, this`shift, store`clock, store`jobs
      ensures LegalShift(p, shift) && Continues(old(shift), shift) && store.clock >= old(store.clock)
      ensures end != Some(Blocked) ==> Valid()
      ensures
        var e := EventFor(w.worker, msg, fault);
        && (e.None? ==> reply.None? && end.None? && Background(old(shift), shift))
        && (e.Some? ==>
              && StepsTo(old(shift), told) && told.deed == Message(w, e.value)
              && (IsReport(e.value) ==> reply.Some? && reply.value.Result?
                                        && reply.value.outcome == Verdict(PostOf(p, told.before).q, e.value))
              && (if Frees(PostOf(p, told.before).q, e.value)
                  then && Continues(told, ready) && Background(told, ready)
                       && Continues(Noted(ready, Registered(w)), shift)
                       && (end.None? <==> InLine(old(line), w.worker))
                  else reply.None? && end.None? && shift == told))
      ensures msg.Hello? || msg.Empty? ==> reply.None? && end.None?
      ensures !msg.Hello? && !msg.Empty? ==>
        && StepsTo(old(shift), told) && PostOf(p, told.before).q.jobs == old(store.jobs)
        && Heard(p, PostOf(p, told.before).q, PostOf(p, told).q.jobs, w.worker, msg, fault, reply,
                 Frees(PostOf(p, told.before).q, told.deed.e))
      ensures end.Some? ==> Justified(end.value, lead.isLead, plan)
      ensures end == Some(Settled) ==> Dries(old(shift), shift)
      ensures SuffixOf(line, if end.Some? then old(line) + [w] else old(line))
      ensures end == Some(Settled) ==> Covered(line, store.jobs, timer, store.clock)
      ensures end != Some(Settled) ==> timer == old(timer)
      ensures Disciplined(DayOf(p, old(shift))) && Owes(DayOf(p, old(shift)), w) ==>
        end != Some(Blocked) && Disciplined(DayOf(p, shift))
    {
      var free;
      reply, free := Hear(w, msg, fault);
      told, ready := shift, shift;
      end := None;
      if free {
        Meanwhile(noise, Idle);
        ready := shift;
        BackgroundKeeps(p, told, ready);
        if Owes(DayOf(p, told), w) { BackgroundKeepsOwing(p, told, ready, w); }
        end := Register(w, plan);
        DriesAcross(told, ready, shift);
        DriesAcross(old(shift), told, shift);
      }
    }
  }
}
