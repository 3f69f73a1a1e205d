/** One dispatcher at work, as a step machine: streams opening, reporting and ending, passes over the line, the
    retry timer, and everything the rest of the cluster does to the queue between any two of its steps.

    The dispatcher's lock is held from the moment a pass begins until it ends, so no registration, departure or
    other pass falls in between; statements of others, the clock and the streams' receipts do. */
module Shift {
  import opened Jobs
  import opened QueueMachine
  import opened Line
  import opened Timer
  import opened Heartbeat

  /** Where the lock stands: free; a pass has begun; claiming under a term; about to arm the timer; or a send
      found its channel full and blocks with the lock held. */
  datatype Mode = Idle | Passing | Serving(term: int) | Arming | Stuck

  /** `freed` are the streams between a message that frees their worker and the registration it leads to;
      `pushes` counts the enqueues of this server whose push is still to come. */
  datatype Post = Post(
    q: Queue, desk: Desk, timer: Option<Time>, mode: Mode, freed: set<Waiter>, pushes: nat)

  datatype Deed =
    | Elsewhere(e: Event)           // the clock, another server, this server's reaper, a statement no push follows
    | Admitted(w: Waiter)           // a stream opens, and its worker registers
    | Message(w: Waiter, e: Event)  // a worker's report or heartbeat reaches the store
    | Registered(w: Waiter)         // ... and the worker it freed registers again
    | Enqueued(e: Event)            // Enqueue on this server stored a job
    | Pushed                        // ... and pushes
    | Fired                         // the timer's push begins
    | Led(term: int)                // the pass finds this server leading
    | Served(id: JobId)             // a job is claimed for the first in line and sent
    | Dried                         // the line is empty or nothing is visible
    | Armed(due: Time)              // the timer is set for the oldest pending job, if anybody waits for it
    | GaveUp                        // the pass ends early: not leading, shutting down, or a store error
    | Took(w: Waiter)               // a stream receives from its channel
    | Left(w: Waiter)               // a stream ends

  predicate IsMessage(e: Event) { e.Completing? || e.Failing? || e.Beating? }

  /** The message leaves its sender without a job: every report does, and a heartbeat the store refused. */
  predicate Frees(q: Queue, e: Event) {
    e.Completing? || e.Failing? || (e.Beating? && e.fault.NoFault? && !Owned(q.jobs, e.id, e.worker))
  }

  /** What the pass finds when it asks for the oldest pending job. */
  predicate Oldest(q: Queue, due: Time) {
    if DueTimes(q.jobs) == {} then due == q.now else IsLeast(due, DueTimes(q.jobs))
  }

  predicate CanDo(x: Post, d: Deed) {
    match d
    case Elsewhere(e) => Enabled(x.q, e)
    case Admitted(w) => x.mode.Idle? && w.worker != "" && CanMove(x.desk, Open(w))
    case Message(w, e) =>
      w in x.desk.accounts && w !in x.freed && IsMessage(e) && e.worker == w.worker && Enabled(x.q, e)
    case Registered(w) => x.mode.Idle? && w in x.freed && CanMove(x.desk, Free(w))
    case Enqueued(e) => e.Create? && e.cid !in x.q.jobs
    case Pushed => x.mode.Idle? && x.pushes > 0
    case Fired => x.mode.Idle? && x.timer.Some? && x.timer.value <= x.q.now
    case Led(term) => x.mode.Passing? && term <= x.q.top
    case Served(id) =>
      && x.mode.Serving? && x.desk.line != [] && x.desk.line[0] in x.desk.accounts
      && Enabled(x.q, Claiming(x.mode.term, x.desk.line[0].worker, id))
    case Dried => x.mode.Serving? && (x.desk.line == [] || VisibleJobs(x.q.jobs, x.q.now) == {})
    case Armed(due) => x.mode.Arming? && (x.desk.line != [] && HasPending(x.q.jobs) ==> Oldest(x.q, due))
    case GaveUp => x.mode.Passing? || x.mode.Serving? || x.mode.Arming?
    case Took(w) => CanMove(x.desk, Take(w))
    case Left(w) => x.mode.Idle? && CanMove(x.desk, Close(w))
  }

  function After(p: Params, x: Post, d: Deed): Post
    requires CanDo(x, d)
  {
    match d
    case Elsewhere(e) => x.(q := Next(p, x.q, e))
    case Admitted(w) =>
      x.(desk := AfterMove(x.desk, Open(w)), mode := if InLine(x.desk.line, w.worker) then Idle else Passing)
    case Message(w, e) => x.(q := Next(p, x.q, e), freed := x.freed + if Frees(x.q, e) then {w} else {})
    case Registered(w) =>
      x.(desk := AfterMove(x.desk, Free(w)), freed := x.freed - {w},
         mode := if InLine(x.desk.line, w.worker) then Idle else Passing)
    case Enqueued(e) => x.(q := Next(p, x.q, e), pushes := x.pushes + 1)
    case Pushed => x.(pushes := x.pushes - 1, mode := Passing)
    case Fired => x.(timer := None, mode := Passing)
    case Led(term) => x.(mode := Serving(term))
    case Served(id) =>
      var q' := Next(p, x.q, Claiming(x.mode.term, x.desk.line[0].worker, id));
      if Jammed(x.desk) then x.(q := q', mode := Stuck)
      else x.(q := q', desk := AfterMove(x.desk, Give(Assigned(id, LeaseSeconds(p.leaseFor)))))
    case Dried => x.(mode := Arming)
    case Armed(due) =>
      x.(mode := Idle,
         timer := if x.desk.line != [] && HasPending(x.q.jobs) then Some(Max(x.q.now + MIN_ARM, due)) else x.timer)
    case GaveUp => x.(mode := Idle)
    case Took(w) => x.(desk := AfterMove(x.desk, Take(w)))
    case Left(w) => x.(desk := AfterMove(x.desk, Close(w)), freed := x.freed - {w})
  }

  /** A server starts on whatever queue earlier ones left behind. */
  datatype Shift = Start(past: Run) | Noted(before: Shift, deed: Deed)

  function PostOf(p: Params, s: Shift): Post {
    match s
    case Start(past) => Post(StateOf(p, past), EMPTY_DESK, None, Idle, {}, 0)
    case Noted(b, d) => if CanDo(PostOf(p, b), d) then After(p, PostOf(p, b), d) else PostOf(p, b)
  }

  predicate LegalShift(p: Params, s: Shift) {
    match s
    case Start(past) => Legal(p, past)
    case Noted(b, d) => LegalShift(p, b) && CanDo(PostOf(p, b), d)
  }

  /** `later` continues `s` by zero or more deeds. */
  predicate Continues(s: Shift, later: Shift) {
    s == later || (later.Noted? && Continues(s, later.before))
  }

  lemma {:induction false} ContinuesAcross(a: Shift, b: Shift, c: Shift)
    requires Continues(a, b) && Continues(b, c)
    ensures Continues(a, c)
  {
    if b != c { ContinuesAcross(a, b, c.before); }
  }

  function Length(s: Shift): nat { if s.Start? then 0 else 1 + Length(s.before) }

  lemma {:induction false} LaterIsLonger(s: Shift, later: Shift)
    requires Continues(s, later)
    ensures s == later || Length(s) < Length(later)
  {
    if s != later { LaterIsLonger(s, later.before); }
  }

  lemma {:induction false} EarlierIsLegal(p: Params, s: Shift, later: Shift)
    requires LegalShift(p, later) && Continues(s, later)
    ensures LegalShift(p, s)
  {
    if s != later { EarlierIsLegal(p, s, later.before); }
  }

  // ---------- Projections: a shift is a queue run and a day at the desk ----------

  function RunOf(p: Params, s: Shift): Run {
    match s
    case Start(past) => past
    case Noted(b, d) =>
      if d.Elsewhere? || d.Message? || d.Enqueued? then Then(RunOf(p, b), d.e)
      else if d.Served? && CanDo(PostOf(p, b), d)
      then Then(RunOf(p, b), Claiming(PostOf(p, b).mode.term, PostOf(p, b).desk.line[0].worker, d.id))
      else RunOf(p, b)
  }

  /** What the deed does at the desk, if anything. */
  function MoveOf(p: Params, x: Post, d: Deed): Option<Move> {
    match d
    case Admitted(w) => Some(Open(w))
    case Registered(w) => Some(Free(w))
    case Served(id) => if Jammed(x.desk) then None else Some(Give(Assigned(id, LeaseSeconds(p.leaseFor))))
    case Took(w) => Some(Take(w))
    case Left(w) => Some(Close(w))
    case _ => None
  }

  function DayOf(p: Params, s: Shift): Day {
    match s
    case Start(_) => Dawn
    case Noted(b, d) =>
      var m := MoveOf(p, PostOf(p, b), d);
      if m.Some? then Did(DayOf(p, b), m.value) else DayOf(p, b)
  }

  lemma DeedMovesDesk(p: Params, x: Post, d: Deed)
    requires CanDo(x, d)
    ensures
      match MoveOf(p, x, d)
      case None => After(p, x, d).desk == x.desk
      case Some(m) => CanMove(x.desk, m) && After(p, x, d).desk == AfterMove(x.desk, m)
  {}

  lemma {:induction false} ShiftIsARun(p: Params, s: Shift)
    requires LegalShift(p, s)
    ensures Legal(p, RunOf(p, s)) && StateOf(p, RunOf(p, s)) == PostOf(p, s).q
  {
    if s.Noted? { ShiftIsARun(p, s.before); }
  }

  lemma {:induction false} ShiftIsADay(p: Params, s: Shift)
    requires LegalShift(p, s)
    ensures LegalDay(DayOf(p, s)) && DeskOf(DayOf(p, s)) == PostOf(p, s).desk && DeskInv(PostOf(p, s).desk)
  {
    if s.Noted? {
      ShiftIsADay(p, s.before);
      DeedMovesDesk(p, PostOf(p, s.before), s.deed);
    }
    DeliveriesAreBounded(DayOf(p, s));
  }

  /** No stream of this worker ended between `s` and `later`. */
  predicate Remains(s: Shift, later: Shift, worker: WorkerId)
    requires Continues(s, later)
  {
    s == later || (Remains(s, later.before, worker) && (later.deed.Left? ==> later.deed.w.worker != worker))
  }

  lemma {:induction false} DayGoesOn(p: Params, s: Shift, later: Shift, worker: WorkerId)
    requires Continues(s, later) && Remains(s, later, worker)
    ensures DayOn(DayOf(p, s), DayOf(p, later)) && Stays(DayOf(p, s), DayOf(p, later), worker)
  {
    if s != later { DayGoesOn(p, s, later.before, worker); }
  }

  /** Nobody jumps the line: from any moment of a shift on, through passes, registrations and departures, a waiter
      whose worker does not leave is given a job before anybody who does not stand before it is. */
  lemma NobodyJumpsTheLine(p: Params, s: Shift, later: Shift, v: Waiter, w: Waiter)
    requires LegalShift(p, later) && Continues(s, later) && Remains(s, later, v.worker)
    requires v != w && ComesFirst(PostOf(p, s).desk.line, v, w)
    ensures
      var d, d' := PostOf(p, s).desk, PostOf(p, later).desk;
      GivenTo(d', v) > GivenTo(d, v) || (ComesFirst(d'.line, v, w) && GivenTo(d', w) == GivenTo(d, w))
  {
    EarlierIsLegal(p, s, later);
    ShiftIsADay(p, s);
    ShiftIsADay(p, later);
    DayGoesOn(p, s, later, v.worker);
    FirstComeFirstServed(DayOf(p, s), DayOf(p, later), v, w);
  }

  /** No client forged a lifecycle state, before or during the shift. */
  predicate CleanShift(p: Params, s: Shift) { Clean(p, RunOf(p, s)) }

  lemma ShiftInv(p: Params, s: Shift)
    requires LegalShift(p, s) && CleanShift(p, s)
    ensures QueueInv(PostOf(p, s).q)
  {
    ShiftIsARun(p, s);
    InvHolds(p, RunOf(p, s));
  }

  lemma {:induction false} EarlierIsClean(p: Params, s: Shift, later: Shift)
    requires CleanShift(p, later) && Continues(s, later)
    ensures CleanShift(p, s)
  {
    if s != later { EarlierIsClean(p, s, later.before); }
  }

  /** Streams name their worker, only open streams are between a message and a registration, and a pass claims
      under a term that was won. */
  predicate PostInv(x: Post) {
    && (forall v <- x.desk.accounts :: v.worker != "")
    && x.freed <= x.desk.accounts.Keys
    && (x.mode.Serving? ==> x.mode.term <= x.q.top)
  }

  lemma MoveOpensStreams(d: Desk, m: Move)
    requires CanMove(d, m)
    ensures AfterMove(d, m).accounts.Keys == d.accounts.Keys + if m.Open? then {m.w} else {}
  {}

  lemma DeedKeepsPostInv(p: Params, x: Post, d: Deed)
    requires PostInv(x) && CanDo(x, d)
    ensures PostInv(After(p, x, d))
  {
    DeedMovesDesk(p, x, d);
    var m := MoveOf(p, x, d);
    if m.Some? { MoveOpensStreams(x.desk, m.value); }
  }

  lemma {:induction false} PostInvHolds(p: Params, s: Shift)
    requires LegalShift(p, s)
    ensures PostInv(PostOf(p, s))
  {
    if s.Noted? {
      PostInvHolds(p, s.before);
      DeedKeepsPostInv(p, PostOf(p, s.before), s.deed);
    }
  }

  lemma DeedKeepsJobs(p: Params, x: Post, d: Deed)
    requires CanDo(x, d)
    ensures x.q.jobs.Keys <= After(p, x, d).q.jobs.Keys
  {}

  lemma {:induction false} JobsStay(p: Params, s: Shift, later: Shift, id: JobId)
    requires LegalShift(p, later) && Continues(s, later) && id in PostOf(p, s).q.jobs
    ensures id in PostOf(p, later).q.jobs
  {
    if s != later {
      JobsStay(p, s, later.before, id);
      DeedKeepsJobs(p, PostOf(p, later.before), later.deed);
    }
  }

  // ---------- What goes on in the background ----------

  /** Between `s` and `later` this dispatcher did nothing: only others, the clock and receipts. */
  predicate Background(s: Shift, later: Shift)
    requires Continues(s, later)
  {
    s == later || (Background(s, later.before) && (later.deed.Elsewhere? || later.deed.Took?))
  }

  /** `later` is `s`, then the background, then one deed. */
  predicate StepsTo(s: Shift, later: Shift) {
    later.Noted? && Continues(s, later.before) && Background(s, later.before)
  }

  lemma {:induction false} BackgroundAcross(a: Shift, b: Shift, c: Shift)
    requires Continues(a, b) && Continues(b, c) && Background(a, b) && Background(b, c)
    ensures Continues(a, c) && Background(a, c)
  {
    if b != c { BackgroundAcross(a, b, c.before); }
  }

  lemma BackgroundThenStep(a: Shift, b: Shift, c: Shift)
    requires Continues(a, b) && Background(a, b) && StepsTo(b, c)
    ensures StepsTo(a, c)
  {
    BackgroundAcross(a, b, c.before);
  }

  /** The background leaves the lock, the line, the timer and what is owed alone, and nobody's manners suffer. */
  lemma {:induction false} BackgroundKeeps(p: Params, s: Shift, later: Shift)
    requires LegalShift(p, later) && Continues(s, later) && Background(s, later)
    ensures
      var x, y := PostOf(p, s), PostOf(p, later);
      && y.mode == x.mode && y.desk.line == x.desk.line && y.timer == x.timer
      && y.freed == x.freed && y.pushes == x.pushes && y.desk.accounts.Keys == x.desk.accounts.Keys
    ensures MannersKept(p, s, later)
  {
    if s != later {
      BackgroundKeeps(p, s, later.before);
      DeedKeepsManners(p, later.before, later.deed);
    }
  }

  lemma {:induction false} BackgroundKeepsOwing(p: Params, s: Shift, later: Shift, w: Waiter)
    requires LegalShift(p, later) && Continues(s, later) && Background(s, later) && Owes(DayOf(p, s), w)
    ensures Owes(DayOf(p, later), w)
  {
    if s != later { BackgroundKeepsOwing(p, s, later.before, w); }
  }

  /** A pass came to its end in between: somewhere the line was empty or nothing was visible. */
  predicate Dries(s: Shift, later: Shift)
    requires Continues(s, later)
  {
    s != later && (later.deed.Dried? || Dries(s, later.before))
  }

  lemma {:induction false} DriesAcross(a: Shift, b: Shift, c: Shift)
    requires Continues(a, b) && Continues(b, c)
    ensures Continues(a, c) && (Dries(a, b) || Dries(b, c) ==> Dries(a, c))
  {
    ContinuesAcross(a, b, c);
    if b != c {
      DriesAcross(a, b, c.before);
      LaterIsLonger(a, c.before);
    }
  }

  lemma JoinUp(a: Shift, b: Shift, c: Shift, d: Shift)
    requires Continues(a, b) && Continues(b, c) && Continues(c, d)
    ensures Continues(a, d)
  {
    ContinuesAcross(a, b, c);
    ContinuesAcross(a, c, d);
  }

  /** Nobody new was let into the line with a job in its channel, nobody freed itself once too often. */
  predicate MannersKept(p: Params, s: Shift, later: Shift) {
    && (Uncrowded(DayOf(p, s)) ==> Uncrowded(DayOf(p, later)))
    && (Disciplined(DayOf(p, s)) ==> Disciplined(DayOf(p, later)))
  }

  /** Only a registration can crowd the line or break discipline. */
  lemma DeedKeepsManners(p: Params, s: Shift, d: Deed)
    requires LegalShift(p, s) && CanDo(PostOf(p, s), d)
    ensures !d.Registered? ==> MannersKept(p, s, Noted(s, d))
    ensures d.Registered? && Uncrowded(DayOf(p, s)) ==>
      (Uncrowded(DayOf(p, Noted(s, d))) <==> !Crowds(PostOf(p, s).desk, Free(d.w)))
    ensures d.Registered? && Disciplined(DayOf(p, s)) && Owes(DayOf(p, s), d.w) ==> Disciplined(DayOf(p, Noted(s, d)))
  {
    ShiftIsADay(p, s);
    DeedMovesDesk(p, PostOf(p, s), d);
    var m := MoveOf(p, PostOf(p, s), d);
    if m.Some? && Disciplined(DayOf(p, s)) && (d.Registered? ==> Owes(DayOf(p, s), d.w)) {
      MoveKeepsDiscipline(DayOf(p, s), m.value);
    }
  }

  /** A pass may claim for whoever is first in line; the send blocks only in a crowded line. */
  lemma HeadCanBeServed(p: Params, s: Shift)
    requires LegalShift(p, s) && PostOf(p, s).mode.Serving? && PostOf(p, s).desk.line != []
    ensures
      var x := PostOf(p, s);
      && x.desk.line[0] in x.desk.accounts && x.desk.line[0].worker != "" && x.mode.term <= x.q.top
      && (Uncrowded(DayOf(p, s)) ==> !Jammed(x.desk))
  {
    PostInvHolds(p, s);
    ShiftIsADay(p, s);
    assert PostOf(p, s).desk.line[0] in PostOf(p, s).desk.line;
    if Uncrowded(DayOf(p, s)) { UncrowdedNeverSticks(p, s); }
  }

  lemma UncrowdedNeverSticks(p: Params, s: Shift)
    requires LegalShift(p, s) && Uncrowded(DayOf(p, s))
    ensures !Jammed(PostOf(p, s).desk)
  {
    ShiftIsADay(p, s);
    NeverJamsIff(DayOf(p, s));
  }

  // ---------- The promise over a whole shift ----------

  /** Somebody is on the way to a push: an enqueue, or a freed worker whose registration will not be ignored. */
  predicate Owed(x: Post) {
    x.pushes > 0 || exists w <- x.freed :: !InLine(x.desk.line, w.worker)
  }

  /** No pending job is forgotten while somebody waits: the timer covers them all, or its push is due right now,
      or another push is on its way. */
  predicate Promised(x: Post) {
    Covered(x.desk.line, x.q.jobs, x.timer, x.q.now) || Overdue(x.timer, x.q.now) || Owed(x)
  }

  /** Nobody is stuck holding the lock, and while it is free nothing is forgotten. */
  predicate Works(x: Post) {
    !x.mode.Stuck? && (x.mode.Idle? ==> Promised(x))
  }

  predicate AlwaysWorks(p: Params, s: Shift) {
    Works(PostOf(p, s)) && (s.Noted? ==> AlwaysWorks(p, s.before))
  }

  /** A job due at `due` can arrive unannounced: nobody waits, or a push will come for it anyway. */
  predicate Minded(x: Post, due: Time) {
    x.desk.line == [] || FiresFor(x.timer, x.q.now, due) || Overdue(x.timer, x.q.now) || Owed(x)
  }

  /** The deed cannot strand a job. Five kinds can: a statement of somebody else that turns a row pending; a
      failure report by a worker that already stands in line; a send into a full channel; a pass that ends early;
      and a stream that ends after its report and before the registration the report leads to. */
  predicate Safe(p: Params, x: Post, d: Deed) {
    match d
    case Elsewhere(e) =>
      x.mode.Idle? && Arrival(p, x.q, e).Some? ==> Minded(x, Arrival(p, x.q, e).value)
    case Message(w, e) =>
      x.mode.Idle? && Arrival(p, x.q, e).Some? && InLine(x.desk.line, w.worker) ==>
        Minded(x, Arrival(p, x.q, e).value)
    case Served(_) => !Jammed(x.desk)
    case GaveUp =>
      x.desk.line != [] && HasPending(x.q.jobs) ==>
        || (x.timer.Some? && forall t <- DueTimes(x.q.jobs) :: FiresFor(x.timer, x.q.now, t))
        || Overdue(x.timer, x.q.now) || Owed(x)
    case Left(w) =>
      var line := Leave(x.desk.line, w.worker);
      w in x.freed && line != [] && HasPending(x.q.jobs) ==>
        || Covered(x.desk.line, x.q.jobs, x.timer, x.q.now)
        || Overdue(x.timer, x.q.now) || x.pushes > 0
        || exists v <- x.freed :: v != w && !InLine(line, v.worker)
    case _ => true
  }

  predicate AllSafe(p: Params, s: Shift) {
    s.Noted? ==> AllSafe(p, s.before) && Safe(p, PostOf(p, s.before), s.deed)
  }

  lemma ElsewhereKeepsPromiseIff(p: Params, x: Post, e: Event)
    requires TableInv(x.q.jobs) && x.mode.Idle? && Promised(x) && Enabled(x.q, e)
    ensures Promised(After(p, x, Elsewhere(e))) <==> Safe(p, x, Elsewhere(e))
  {
    if !Overdue(x.timer, x.q.now) && !Owed(x) {
      if e.Tick? {
        TimeKeepsCoverIff(x.desk.line, x.q.jobs, x.timer, x.q.now, e.to);
      } else {
        EventKeepsCoverIff(p, x.q, e, x.desk.line, x.timer);
      }
    }
  }

  lemma MessageKeepsPromiseIff(p: Params, x: Post, w: Waiter, e: Event)
    requires TableInv(x.q.jobs) && x.mode.Idle? && Promised(x) && CanDo(x, Message(w, e))
    ensures Promised(After(p, x, Message(w, e))) <==> Safe(p, x, Message(w, e))
  {
    var y := After(p, x, Message(w, e));
    assert forall v <- x.freed :: v in y.freed;
    if Arrival(p, x.q, e).Some? && !InLine(x.desk.line, w.worker) {
      assert w in y.freed;
    } else if !Overdue(x.timer, x.q.now) && !Owed(x) {
      EventKeepsCoverIff(p, x.q, e, x.desk.line, x.timer);
      if Owed(y) { assert !InLine(x.desk.line, w.worker); }
    }
  }

  /** Arming covers what is pending, and some job is claimable when the timer fires. */
  lemma ArmingCovers(p: Params, x: Post, due: Time)
    requires CanDo(x, Armed(due))
    ensures
      var y := After(p, x, Armed(due));
      && Covered(y.desk.line, y.q.jobs, y.timer, y.q.now)
      && (y.desk.line != [] && DueTimes(y.q.jobs) != {} ==>
            && y.timer.Some? && VisibleJobs(y.q.jobs, y.timer.value) != {}
            && (y.timer.value == y.q.now + MIN_ARM || IsLeast(y.timer.value, DueTimes(y.q.jobs))))
  {
    if DueTimes(x.q.jobs) != {} && x.desk.line != [] {
      var t :| t in DueTimes(x.q.jobs);
      var some :| some in x.q.jobs && x.q.jobs[some].state.Pending? && x.q.jobs[some].nextRunAt == Some(t);
      assert HasPending(x.q.jobs);
      var id :| id in x.q.jobs && x.q.jobs[id].state.Pending? && x.q.jobs[id].nextRunAt == Some(due);
      assert id in VisibleJobs(x.q.jobs, Max(x.q.now + MIN_ARM, due));
    }
  }

  lemma LeavingKeepsPromiseIff(p: Params, x: Post, w: Waiter)
    requires DeskInv(x.desk) && x.mode.Idle? && Promised(x) && CanDo(x, Left(w))
    ensures Promised(After(p, x, Left(w))) <==> Safe(p, x, Left(w))
  {
    var y := After(p, x, Left(w));
    StillInLine(x.desk.line, w.worker);
    assert y.desk.line != [] ==> x.desk.line != [];
    assert Covered(y.desk.line, x.q.jobs, x.timer, x.q.now) <==>
             y.desk.line == [] || Covered(x.desk.line, x.q.jobs, x.timer, x.q.now);
    if w !in x.freed && Owed(x) && x.pushes == 0 {
      var v :| v in x.freed && !InLine(x.desk.line, v.worker);
      assert v in y.freed && !InLine(y.desk.line, v.worker);
    }
  }

  lemma StillInLine(line: seq<Waiter>, worker: WorkerId)
    ensures forall other :: InLine(Leave(line, worker), other) ==> InLine(line, other)
  {
    LeaveDropsOne(line, worker);
    forall other | InLine(Leave(line, worker), other) ensures InLine(line, other) {
      var i :| 0 <= i < |Leave(line, worker)| && Leave(line, worker)[i].worker == other;
      assert Leave(line, worker)[i] in line;
    }
  }

  lemma DeedKeepsPromiseIff(p: Params, x: Post, d: Deed)
    requires TableInv(x.q.jobs) && DeskInv(x.desk) && CanDo(x, d) && Works(x)
    ensures Works(After(p, x, d)) <==> Safe(p, x, d)
  {
    match d
    case Elsewhere(e) => if x.mode.Idle? { ElsewhereKeepsPromiseIff(p, x, e); }
    case Message(w, e) => if x.mode.Idle? { MessageKeepsPromiseIff(p, x, w, e); }
    case Registered(w) =>
      var y := After(p, x, d);
      if y.mode.Idle? && Owed(x) && x.pushes == 0 {
        var v :| v in x.freed && !InLine(x.desk.line, v.worker);
        assert v in y.freed && y.desk.line == x.desk.line;
      }
    case Armed(due) => ArmingCovers(p, x, due);
    case Left(w) => LeavingKeepsPromiseIff(p, x, w);
    case _ =>
  }

  /** The timer's promise, exactly: through a whole shift the dispatcher never got stuck, and no pending job was ever
      left without a push to come while somebody waited, if and only if none of the five kinds of deed went
      unminded on the way. */
  lemma {:induction false} PromiseKeptIff(p: Params, s: Shift)
    requires LegalShift(p, s) && CleanShift(p, s)
    ensures AlwaysWorks(p, s) <==> AllSafe(p, s)
  {
    if s.Noted? {
      PromiseKeptIff(p, s.before);
      ShiftInv(p, s.before);
      ShiftIsADay(p, s.before);
      if AlwaysWorks(p, s.before) { DeedKeepsPromiseIff(p, PostOf(p, s.before), s.deed); }
    }
  }

  /** The deed is this leader's own and goes well: nothing arrives unannounced, no worker in line reports a
      failure or is let in line with a job in its channel, no pass ends early, no stream ends between a report and
      its registration. */
  predicate Smooth(p: Params, x: Post, d: Deed) {
    match d
    case Elsewhere(e) => Arrival(p, x.q, e).None?
    case Message(w, e) => e.Failing? ==> !InLine(x.desk.line, w.worker)
    case Registered(w) => !Crowds(x.desk, Free(w))
    case GaveUp => false
    case Left(w) => w !in x.freed
    case _ => true
  }

  predicate AllSmooth(p: Params, s: Shift) {
    s.Noted? ==> AllSmooth(p, s.before) && Smooth(p, PostOf(p, s.before), s.deed)
  }

  /** No stranded retry: the leader's own admissions, registrations, departures, enqueues, messages and firings,
      with claims, completions and heartbeats by anybody anywhere in between, keep the promise. */
  lemma {:induction false} NoStrandedRetry(p: Params, s: Shift)
    requires LegalShift(p, s) && CleanShift(p, s) && AllSmooth(p, s)
    ensures AlwaysWorks(p, s)
  {
    SmoothIsSafe(p, s);
    PromiseKeptIff(p, s);
  }

  lemma {:induction false} SmoothIsSafe(p: Params, s: Shift)
    requires LegalShift(p, s) && AllSmooth(p, s)
    ensures AllSafe(p, s) && Uncrowded(DayOf(p, s))
  {
    if s.Noted? {
      SmoothIsSafe(p, s.before);
      UncrowdedNeverSticks(p, s.before);
      DeedKeepsManners(p, s.before, s.deed);
    }
  }

  // ---------- A push in time ----------

  /** No pass began between `s` and `later`. */
  predicate NoPass(p: Params, s: Shift, later: Shift)
    requires Continues(s, later)
  {
    PostOf(p, later).mode.Idle? && (s != later ==> NoPass(p, s, later.before))
  }

  /** The timer is served on time: while the lock is free the clock does not run past it. */
  predicate Punctual(p: Params, s: Shift, later: Shift)
    requires Continues(s, later)
  {
    && (PostOf(p, later).mode.Idle? ==> !Overdue(PostOf(p, later).timer, PostOf(p, later).q.now))
    && (s != later ==> Punctual(p, s, later.before))
  }

  lemma {:induction false} TimerStands(p: Params, s: Shift, later: Shift)
    requires LegalShift(p, later) && Continues(s, later) && NoPass(p, s, later)
    ensures PostOf(p, later).timer == PostOf(p, s).timer
  {
    if s != later { TimerStands(p, s, later.before); }
  }

  /** From any moment at which the timer covers the queue: by the time a pending job is due (or MIN_ARM from now,
      if that is later), a pass has begun, whatever the cluster does meanwhile. */
  lemma PushComesInTime(p: Params, s: Shift, later: Shift, id: JobId)
    requires LegalShift(p, later) && Continues(s, later) && Punctual(p, s, later)
    requires Covered(PostOf(p, s).desk.line, PostOf(p, s).q.jobs, PostOf(p, s).timer, PostOf(p, s).q.now)
    requires PostOf(p, s).desk.line != [] && id in PostOf(p, s).q.jobs && PostOf(p, s).q.jobs[id].state.Pending?
    requires PostOf(p, s).q.jobs[id].nextRunAt.Some?
    requires PostOf(p, later).q.now > Max(PostOf(p, s).q.now + MIN_ARM, PostOf(p, s).q.jobs[id].nextRunAt.value)
    ensures !NoPass(p, s, later)
  {
    assert PostOf(p, s).q.jobs[id].nextRunAt.value in DueTimes(PostOf(p, s).q.jobs);
    if NoPass(p, s, later) { TimerStands(p, s, later); }
  }

  /** The pass that `s` is in began with the timer. */
  predicate InFiredPass(p: Params, s: Shift) {
    s.Noted? && !PostOf(p, s).mode.Idle? && (s.deed.Fired? || InFiredPass(p, s.before))
  }

  lemma {:induction false} FiredPassHasNoTimer(p: Params, s: Shift)
    requires LegalShift(p, s) && InFiredPass(p, s)
    ensures PostOf(p, s).timer.None?
  {
    if !s.deed.Fired? { FiredPassHasNoTimer(p, s.before); }
  }

  /** A pass the timer began and that ends early leaves no timer behind: what it should have handed out is
      forgotten exactly when somebody waits, something is pending and no other push is on its way. */
  lemma FiredPassFailsIff(p: Params, s: Shift)
    requires LegalShift(p, s) && InFiredPass(p, s) && CanDo(PostOf(p, s), GaveUp)
    ensures
      var x := PostOf(p, s);
      Promised(PostOf(p, Noted(s, GaveUp))) <==> x.desk.line == [] || !HasPending(x.q.jobs) || Owed(x)
  {
    FiredPassHasNoTimer(p, s);
  }
}
