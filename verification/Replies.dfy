/** What a worker is told about its report, against what the store did with it. */
module Replies {
  import opened Jobs
  import opened QueueMachine

  datatype Outcome = Accepted | Refused | Retrying | DeadLettered

  predicate IsReport(e: Event) { e.Completing? || e.Failing? }

  /** The outcome in the Result sent back. Any store error is answered as a refusal. */
  function Verdict(q: Queue, e: Event): Outcome
    requires IsReport(e)
  {
    if !e.fault.NoFault? || !Owned(q.jobs, e.id, e.worker) then Refused
    else if e.Completing? then Accepted
    else if CanRetry(q.jobs[e.id]) then Retrying
    else DeadLettered
  }

  /** The verdict names the state the row is in now, and says Refused exactly when the report changed nothing. */
  predicate Honest(p: Params, q: Queue, e: Event)
    requires IsReport(e)
  {
    var after := Next(p, q, e).jobs;
    var mine := Owned(q.jobs, e.id, e.worker) && e.id in after;
    && (Verdict(q, e) == Refused <==> after == q.jobs)
    && (Verdict(q, e) == Accepted <==> mine && after[e.id].state.Done?)
    && (Verdict(q, e) == Retrying <==> mine && after[e.id].state.Pending?)
    && (Verdict(q, e) == DeadLettered <==> mine && after[e.id].state.Failed?)
  }

  /** The reply tells the truth in every case but one: the update landed and the database's answer was lost,
      so the rightful owner is told it was refused. */
  lemma HonestIff(p: Params, q: Queue, e: Event)
    requires IsReport(e)
    ensures Honest(p, q, e) <==> !(e.fault.ReplyLost? && Owned(q.jobs, e.id, e.worker))
  {
    if Owned(q.jobs, e.id, e.worker) && !e.fault.Dropped? {
      assert Next(p, q, e).jobs[e.id].state != q.jobs[e.id].state;
    }
  }

  /** The exception is reachable: a completed job whose worker is told it was refused. */
  lemma LostReplyLies()
    ensures
      var p := Params(30, 1);
      var run := Then(Then(Then(Begin(Queue(1, map[], 0)), Create("j", "", 3, "")), Winning(1)), Claiming(1, "w", "j"));
      var e := Completing("w", "j", ReplyLost);
      && Legal(p, run) && Clean(p, run) && Enabled(StateOf(p, run), e)
      && Verdict(StateOf(p, run), e) == Refused
      && Next(p, StateOf(p, run), e).jobs["j"].state.Done?
  {
    var p := Params(30, 1);
    var r0 := Begin(Queue(1, map[], 0));
    var r1 := Then(r0, Create("j", "", 3, ""));
    var r2 := Then(r1, Winning(1));
    var r3 := Then(r2, Claiming(1, "w", "j"));
    assert StateOf(p, r1).jobs == map["j" := NewRow("", 3, "", 1)];
    assert Legal(p, r2);
    assert Visible(StateOf(p, r2).jobs["j"], 1);
    assert Clean(p, r3);
  }

  predicate Settles(q: Queue, e: Event, id: JobId) {
    IsReport(e) && e.id == id && (Verdict(q, e) == Accepted || Verdict(q, e) == DeadLettered)
  }

  function SettledReplies(p: Params, run: Run, id: JobId): nat {
    match run
    case Begin(_) => 0
    case Then(r, e) => SettledReplies(p, r, id) + if Settles(StateOf(p, r), e, id) then 1 else 0
  }

  predicate SaysRetrying(q: Queue, e: Event, id: JobId) {
    IsReport(e) && e.id == id && Verdict(q, e) == Retrying
  }

  function RetryingReplies(p: Params, run: Run, id: JobId): nat {
    match run
    case Begin(_) => 0
    case Then(r, e) => RetryingReplies(p, r, id) + if SaysRetrying(StateOf(p, r), e, id) then 1 else 0
  }

  /** What the replies so far may add up to, given the row they were about. */
  predicate Accounted(r: Row, settled: nat, retrying: nat) {
    && settled <= (if r.state.Done? || r.state.Failed? then 1 else 0)
    && retrying <= Min(r.retryCount, Budget(r))
  }

  lemma StepKeepsAccounts(p: Params, q: Queue, e: Event, id: JobId, settled: nat, retrying: nat)
    requires QueueInv(q) && Enabled(q, e) && id in q.jobs && Accounted(q.jobs[id], settled, retrying)
    ensures id in Next(p, q, e).jobs
    ensures Accounted(Next(p, q, e).jobs[id], settled + (if Settles(q, e, id) then 1 else 0),
                      retrying + (if SaysRetrying(q, e, id) then 1 else 0))
  {}

  /** Across all servers and workers, and whatever replies were lost, a job is settled at most once and
      only if it is over, and its workers hear of at most max_retries retries. */
  lemma {:induction false} RepliesAreBounded(p: Params, run: Run, id: JobId)
    requires Legal(p, run) && Clean(p, run)
    ensures id !in StateOf(p, run).jobs ==> SettledReplies(p, run, id) == 0 && RetryingReplies(p, run, id) == 0
    ensures id in StateOf(p, run).jobs ==>
      Accounted(StateOf(p, run).jobs[id], SettledReplies(p, run, id), RetryingReplies(p, run, id))
  {
    if run.Then? {
      RepliesAreBounded(p, run.before, id);
      InvHolds(p, run.before);
      var q := StateOf(p, run.before);
      if id in q.jobs {
        StepKeepsAccounts(p, q, run.event, id,
                          SettledReplies(p, run.before, id), RetryingReplies(p, run.before, id));
      }
    }
  }
}
