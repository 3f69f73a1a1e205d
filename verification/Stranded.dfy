/** The ways a job is left with a worker waiting and no push to come, each reached by a shift of one dispatcher. */
module Stranded {
  import opened Jobs
  import opened QueueMachine
  import opened Line
  import opened Timer
  import opened Shift
  import opened Heartbeat

  const P := Params(30, 1)

  const ANN := Waiter(1, "ann")

  const BOB := Waiter(2, "bob")

  predicate StandsAt(s: Shift, x: Post) {
    LegalShift(P, s) && CleanShift(P, s) && PostOf(P, s) == x
  }

  /** Some legal shift, with nothing forged, ends in this state. */
  ghost predicate Reached(x: Post) { exists s :: StandsAt(s, x) }

  lemma Walk(x: Post, d: Deed) returns (y: Post)
    requires Reached(x) && CanDo(x, d) && !((d.Elsewhere? || d.Enqueued?) && Forges(x.q, d.e))
    ensures y == After(P, x, d) && Reached(y)
  {
    var s :| StandsAt(s, x);
    y := After(P, x, d);
    ShiftIsARun(P, s);
    assert StandsAt(Noted(s, d), y);
  }

  /** A whole pass that finds nothing for anybody. */
  lemma IdlePass(x: Post)
    requires Reached(x) && x.mode.Passing? && x.q.top == 1 && !HasPending(x.q.jobs)
    ensures Reached(x.(mode := Idle))
  {
    var x1 := Walk(x, Led(1));
    var x2 := Walk(x1, Dried);
    var x3 := Walk(x2, Armed(0));
  }

  function Fresh(): Row { NewRow("", 3, "", 1) }

  function Held(): Row { ClaimRow(Fresh(), 1, "ann", 30, 1) }

  function Retry(): Row { FailRow(Held(), "boom", 1, 1) }

  /** Nobody is passing, the timer is not set, and no push is on its way. */
  function Quiet(jobs: Table, line: seq<Waiter>, accounts: map<Waiter, Account>): Post {
    Post(Queue(1, jobs, 1), Desk(line, accounts), None, Idle, {}, 0)
  }

  /** The server leads under term 1; Ann joins the line and nothing is pending. */
  lemma AnnWaits()
    ensures Reached(Quiet(map[], [ANN], map[ANN := NEW_ACCOUNT]))
  {
    var r0 := Begin(Queue(1, map[], 0));
    var r1 := Then(r0, Winning(1));
    assert Legal(P, r0) && StateOf(P, r1) == Queue(1, map[], 1) && Clean(P, r0);
    assert StandsAt(Start(r1), Quiet(map[], [], map[]));
    var x1 := Walk(Quiet(map[], [], map[]), Admitted(ANN));
    assert x1.desk == Desk([ANN], map[ANN := NEW_ACCOUNT]);
    IdlePass(x1);
  }

  /** A job comes, and a pass begins to serve Ann. */
  lemma AnnIsNext()
    ensures Reached(Quiet(map["j" := Fresh()], [ANN], map[ANN := NEW_ACCOUNT]).(mode := Serving(1)))
  {
    AnnWaits();
    var x1 := Walk(Quiet(map[], [ANN], map[ANN := NEW_ACCOUNT]), Enqueued(Create("j", "", 3, "")));
    assert x1.q.jobs == map["j" := Fresh()];
    var x2 := Walk(x1, Pushed);
    var x3 := Walk(x2, Led(1));
  }

  /** The claim's effect on the queue, and the delivery's on the desk. */
  lemma ServingAnn(q: Queue, desk: Desk)
    requires q == Queue(1, map["j" := Fresh()], 1) && desk == Desk([ANN], map[ANN := NEW_ACCOUNT])
    ensures Enabled(q, Claiming(1, "ann", "j")) && Next(P, q, Claiming(1, "ann", "j")) == Queue(1, map["j" := Held()], 1)
    ensures CanMove(desk, Give(Assigned("j", 0)))
    ensures AfterMove(desk, Give(Assigned("j", 0))) == Desk([], map[ANN := Account([Assigned("j", 0)], 1, 0, 0)])
  {
    assert Next(P, q, Claiming(1, "ann", "j")).jobs == map["j" := Held()];
    var after := AfterMove(desk, Give(Assigned("j", 0)));
    assert after.line == [] && after.accounts == map[ANN := Account([Assigned("j", 0)], 1, 0, 0)];
  }

  /** The job is claimed for Ann. */
  lemma AnnIsServed()
    ensures Reached(Quiet(map["j" := Held()], [], map[ANN := Account([Assigned("j", 0)], 1, 0, 0)]).(mode := Serving(1)))
  {
    AnnIsNext();
    assert LeaseSeconds(P.leaseFor) == 0;
    var x0 := Quiet(map["j" := Fresh()], [ANN], map[ANN := NEW_ACCOUNT]).(mode := Serving(1));
    ServingAnn(x0.q, x0.desk);
    var x1 := Walk(x0, Served("j"));
  }

  /** She receives it. */
  lemma AnnReceives()
    ensures Reached(Quiet(map["j" := Held()], [], map[ANN := Account([], 1, 1, 0)]).(mode := Serving(1)))
  {
    AnnIsServed();
    var x0 := Quiet(map["j" := Held()], [], map[ANN := Account([Assigned("j", 0)], 1, 0, 0)]).(mode := Serving(1));
    var x1 := Walk(x0, Took(ANN));
    assert x1.desk.accounts[ANN].inbox == [];
    assert x1.desk.accounts == map[ANN := Account([], 1, 1, 0)];
  }

  lemma AnnWorks()
    ensures Reached(Quiet(map["j" := Held()], [], map[ANN := Account([], 1, 1, 0)]))
  {
    AnnReceives();
    var x1 := Walk(Quiet(map["j" := Held()], [], map[ANN := Account([], 1, 1, 0)]).(mode := Serving(1)), Dried);
    var x2 := Walk(x1, Armed(0));
  }

  /** Somebody waits, a job is pending, and no push is to come: not by the timer, not by anybody on the way. */
  predicate Forgotten(x: Post) {
    && x.mode.Idle? && x.desk.line != [] && HasPending(x.q.jobs)
    && x.timer.None? && x.freed == {} && x.pushes == 0 && !Promised(x)
  }

  /** Ann puts herself back in line with a heartbeat for a job that is not hers. */
  lemma AnnWorksInLine()
    ensures Reached(Quiet(map["j" := Held()], [ANN], map[ANN := Account([], 1, 1, 1)]))
  {
    AnnWorks();
    var x1 := Walk(Quiet(map["j" := Held()], [], map[ANN := Account([], 1, 1, 0)]),
                   Message(ANN, Beating("ann", "x", NoFault)));
    assert x1.freed == {ANN};
    var x2 := Walk(x1, Registered(ANN));
    assert x2.desk == Desk([ANN], map[ANN := Account([], 1, 1, 1)]) && x2.freed == {};
    IdlePass(x2);
  }

  /** A retry is forgotten: standing in line, Ann reports her job failed; her registration is ignored, and nothing
      pushes. */
  lemma RetryCanBeStranded() returns (x: Post)
    ensures Reached(x) && Forgotten(x)
  {
    AnnWorksInLine();
    var x1 := Walk(Quiet(map["j" := Held()], [ANN], map[ANN := Account([], 1, 1, 1)]),
                   Message(ANN, Failing("ann", "j", "boom", NoFault)));
    assert x1.q.jobs["j"] == Retry() && x1.freed == {ANN};
    assert x1.desk.line[0] == ANN;
    x := Walk(x1, Registered(ANN));
    assert x.q.jobs["j"].state.Pending?;
  }

  function TwoAccounts(): map<Waiter, Account> { map[ANN := Account([], 1, 1, 0), BOB := NEW_ACCOUNT] }

  /** Bob joins the line while Ann works, and waits. */
  lemma BobWaits()
    ensures Reached(Quiet(map["j" := Held()], [BOB], TwoAccounts()))
  {
    AnnWorks();
    var x1 := Walk(Quiet(map["j" := Held()], [], map[ANN := Account([], 1, 1, 0)]), Admitted(BOB));
    assert x1.desk == Desk([BOB], TwoAccounts());
    IdlePass(x1);
  }

  /** A reaped job is forgotten: Ann goes silent, the reaper gives her job back, and does not push. */
  lemma ReapedJobCanBeStranded() returns (x: Post)
    ensures Reached(x) && Forgotten(x)
  {
    BobWaits();
    var x1 := Walk(Quiet(map["j" := Held()], [BOB], TwoAccounts()), Elsewhere(Tick(32)));
    x := Walk(x1, Elsewhere(Sweeping(1)));
    assert x.q.jobs["j"] == ReapRow(Held(), 32);
  }

  /** Ann reports her job failed while Bob waits, and registers. */
  lemma AnnFails() returns (x: Post)
    ensures Reached(x) && x.mode.Passing? && x.desk.line == [BOB, ANN] && x.freed == {} && x.pushes == 0
    ensures x.q == Queue(1, map["j" := Retry()], 1) && x.timer.None?
  {
    BobWaits();
    var x1 := Walk(Quiet(map["j" := Held()], [BOB], TwoAccounts()), Message(ANN, Failing("ann", "j", "boom", NoFault)));
    assert x1.q.jobs == map["j" := Retry()] && x1.freed == {ANN};
    x := Walk(x1, Registered(ANN));
  }

  /** The pass arms the timer for the retry. */
  lemma RetryIsMinded() returns (x: Post)
    ensures Reached(x) && x.mode.Idle? && x.desk.line == [BOB, ANN] && x.freed == {} && x.pushes == 0
    ensures x.q == Queue(1, map["j" := Retry()], 1) && x.timer == Some(1 + MIN_ARM)
  {
    var x1 := AnnFails();
    var x2 := Walk(x1, Led(1));
    RetryIsDueAtTwo(x2.q.jobs);
    var x3 := Walk(x2, Dried);
    x := Walk(x3, Armed(2));
  }

  lemma RetryIsDueAtTwo(jobs: Table)
    requires jobs == map["j" := Retry()]
    ensures VisibleJobs(jobs, 1) == {} && HasPending(jobs) && DueTimes(jobs) == {2}
  {
    assert Pow2(0) == 1 && Retry().nextRunAt == Some(2);
    assert jobs["j"].state.Pending?;
  }

  /** One store error in the timer's own pass, and the retry it was set for is forgotten. */
  lemma FailedPassCanStrand() returns (x: Post)
    ensures Reached(x) && Forgotten(x)
  {
    var x0 := RetryIsMinded();
    var x1 := Walk(x0, Elsewhere(Tick(1 + MIN_ARM)));
    var x2 := Walk(x1, Fired);
    x := Walk(x2, GaveUp);
    assert x.q.jobs["j"].state.Pending?;
  }
}
