/** The rhythm a worker renews at, derived from the lease the server announces in whole seconds. */
module Heartbeat {
  import opened Jobs
  import opened QueueMachine
  import opened Deadlines

  /** What the server announces: the lease, always positive, truncated to whole seconds. */
  function LeaseSeconds(leaseFor: Time): (seconds: int)
    ensures leaseFor - 1_000_000_000 < seconds * 1_000_000_000 <= leaseFor
  {
    leaseFor / SECOND
  }

  /** What the worker makes of it. */
  function BeatInterval(leaseSeconds: int): (interval: Time)
    requires leaseSeconds >= 0
    ensures interval > 0
    ensures leaseSeconds == 0 ==> interval == 10_000_000_000
    ensures leaseSeconds > 0 ==> 3 * interval <= leaseSeconds * 1_000_000_000 < 3 * interval + 3
  {
    var lease := if leaseSeconds * SECOND <= 0 then DEFAULT_LEASE else leaseSeconds * SECOND;
    if lease / 3 <= 0 then SECOND else lease / 3
  }

  /** Three beats fit in a lease exactly when the lease is at least a second: below that it is announced as
      zero and the worker falls back to a thirty-second lease nobody granted. A fourth does not, once the second
      lost to rounding is allowed for. */
  lemma ThreeBeatsFitIff(leaseFor: Time)
    requires leaseFor > 0
    ensures 3 * BeatInterval(LeaseSeconds(leaseFor)) <= leaseFor <==> leaseFor >= SECOND
    ensures 3 * BeatInterval(LeaseSeconds(leaseFor)) + 3 + SECOND > leaseFor
    ensures leaseFor < SECOND ==> BeatInterval(LeaseSeconds(leaseFor)) == 10 * SECOND
  {
    var secs := LeaseSeconds(leaseFor);
    assert secs * SECOND <= leaseFor < (secs + 1) * SECOND;
  }

  /** A worker whose beats reach the store at most two thirds of a lease late is never reaped: not by any
      server, not in any number of sweeps. */
  lemma BeatingWorkerIsNeverReaped(
    p: Params, run: Run, claim: Event, later: Run, delay: Time)
    requires p.leaseFor >= SECOND && 3 * delay <= 2 * p.leaseFor
    requires claim.Claiming? && Extends(Then(run, claim), later) && Legal(p, later) && Clean(p, later)
    requires Attentive(p, Then(run, claim), later, claim.id, claim.worker,
                       BeatInterval(LeaseSeconds(p.leaseFor)) + delay)
    ensures claim.id in StateOf(p, later).jobs && Owns(StateOf(p, later).jobs[claim.id], claim.worker)
    ensures claim.id in StateOf(p, run).jobs
    ensures StateOf(p, later).jobs[claim.id].retryCount == StateOf(p, run).jobs[claim.id].retryCount
  {
    ThreeBeatsFitIff(p.leaseFor);
    var first := Then(run, claim);
    PrefixIsFine(p, first, later);
    AttentiveWorkerKeepsJob(p, first, later, claim.id, claim.worker, StateOf(p, run).jobs[claim.id].retryCount,
                            BeatInterval(LeaseSeconds(p.leaseFor)) + delay);
  }

  /** Under any lease shorter than a second, a perfectly punctual worker can be reaped before its first beat. */
  lemma ShortLeaseReapsPunctualWorker(leaseFor: Time)
    requires 0 < leaseFor < SECOND
    ensures
      var p := Params(leaseFor, SECOND);
      var r := Then(Then(Begin(Queue(1, map[], 0)), Create("j", "", 3, "")), Winning(1));
      var late := Then(Then(Then(r, Claiming(1, "w", "j")), Tick(2 + leaseFor)), Sweeping(1));
      && Legal(p, late) && Clean(p, late)
      && StateOf(p, late).now < StateOf(p, r).now + BeatInterval(LeaseSeconds(leaseFor))
      && "j" in StateOf(p, late).jobs
      && StateOf(p, late).jobs["j"].state.Pending? && StateOf(p, late).jobs["j"].retryCount == 1
  {
    var p := Params(leaseFor, SECOND);
    var r0 := Begin(Queue(1, map[], 0));
    var r1 := Then(r0, Create("j", "", 3, ""));
    var row := NewRow("", 3, "", 1);
    assert StateOf(p, r1) == Queue(1, map["j" := row], 0);
    assert CleanStatus("") && r1.event.status == "";
    assert Clean(p, r0);
    assert Legal(p, r1) && Clean(p, r1);
    var r2 := Then(r1, Winning(1));
    assert Legal(p, r2) && Clean(p, r2);
    var r3 := Then(r2, Claiming(1, "w", "j"));
    var held := ClaimRow(row, 1, "w", leaseFor, 1);
    assert Visible(StateOf(p, r2).jobs["j"], 1);
    assert StateOf(p, r3) == Queue(1, map["j" := held], 1);
    assert Legal(p, r3) && Clean(p, r3);
    var r4 := Then(r3, Tick(2 + leaseFor));
    assert StateOf(p, r4) == Queue(2 + leaseFor, map["j" := held], 1);
    assert Legal(p, r4) && Clean(p, r4);
    assert Reapable(held, 1, 2 + leaseFor);
    var r5 := Then(r4, Sweeping(1));
    assert StateOf(p, r5).jobs["j"] == ReapRow(held, 2 + leaseFor);
    assert Legal(p, r5) && Clean(p, r5);
  }
}
