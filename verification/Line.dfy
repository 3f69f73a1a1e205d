/** The line of free workers and their one-slot delivery channels. */
module Line {
  import opened Jobs

  /** A worker's stream; `stream` tells apart streams that name the same worker. */
  datatype Waiter = Waiter(stream: nat, worker: WorkerId)

  /** A job on its way to a worker, with the lease announced for it. */
  datatype Assigned = Assigned(job: JobId, leaseSeconds: int)

  predicate InLine(line: seq<Waiter>, worker: WorkerId) {
    exists i :: 0 <= i < |line| && line[i].worker == worker
  }

  predicate DistinctWorkers(line: seq<Waiter>) {
    forall i, j | 0 <= i < j < |line| :: line[i].worker != line[j].worker
  }

  /** Registering twice would let a worker be handed two jobs, so the second time is ignored. */
  function Enter(line: seq<Waiter>, w: Waiter): (r: seq<Waiter>)
    ensures DistinctWorkers(line) ==> DistinctWorkers(r)
    ensures InLine(r, w.worker)
  {
    if InLine(line, w.worker) then line else
      assert (line + [w])[|line|] == w;
      line + [w]
  }

  /** `k` is the first place in line with this worker's name on it. */
  predicate FirstAt(line: seq<Waiter>, worker: WorkerId, k: nat) {
    k < |line| && line[k].worker == worker && forall i | 0 <= i < k :: line[i].worker != worker
  }

  /** Takes out one entry, the first that names the worker, and leaves everybody else where they stood; with nobody of
      that name in line it changes nothing. */
  function Leave(line: seq<Waiter>, worker: WorkerId): (r: seq<Waiter>)
    ensures !InLine(line, worker) ==> r == line
    ensures forall k: nat :: FirstAt(line, worker, k) ==> r == line[..k] + line[k + 1..]
  {
    if line == [] then []
    else if line[0].worker == worker then line[1..]
    else
      assert forall i | 0 <= i < |line[1..]| :: line[1..][i] == line[i + 1];
      assert forall k: nat :: FirstAt(line, worker, k) ==> k > 0 && FirstAt(line[1..], worker, k - 1);
      [line[0]] + Leave(line[1..], worker)
  }

  lemma {:induction false} SomebodyIsFirst(line: seq<Waiter>, worker: WorkerId) returns (k: nat)
    requires InLine(line, worker)
    ensures FirstAt(line, worker, k)
  {
    k :| k < |line| && line[k].worker == worker;
    if InLine(line[..k], worker) { k := SomebodyIsFirst(line[..k], worker); }
    else { assert forall i | 0 <= i < k :: line[..k][i] == line[i]; }
  }

  lemma DroppingKeepsOthers(line: seq<Waiter>, k: nat, r: seq<Waiter>)
    requires k < |line| && r == line[..k] + line[k + 1..]
    ensures forall v <- r :: v in line
    ensures forall v <- line :: v.worker != line[k].worker ==> v in r
  {
    forall v <- line | v.worker != line[k].worker ensures v in r {
      var i :| 0 <= i < |line| && line[i] == v;
      assert r[if i < k then i else i - 1] == v;
    }
  }

  lemma DroppingKeepsDistinct(line: seq<Waiter>, k: nat, r: seq<Waiter>)
    requires k < |line| && r == line[..k] + line[k + 1..] && DistinctWorkers(line)
    ensures DistinctWorkers(r) && !InLine(r, line[k].worker)
  {}

  lemma LeaveDropsOne(line: seq<Waiter>, worker: WorkerId)
    ensures forall v <- Leave(line, worker) :: v in line
    ensures forall v <- line :: v.worker != worker ==> v in Leave(line, worker)
    ensures DistinctWorkers(line) ==> DistinctWorkers(Leave(line, worker)) && !InLine(Leave(line, worker), worker)
  {
    if InLine(line, worker) {
      var k := SomebodyIsFirst(line, worker);
      DroppingKeepsOthers(line, k, Leave(line, worker));
      if DistinctWorkers(line) { DroppingKeepsDistinct(line, k, Leave(line, worker)); }
    }
  }

  // ---------- Deliveries over a whole day ----------

  /** What passed through one stream: jobs in its channel now, how many were put in and taken out ever, and
      messages of the worker that put it back in line. */
  datatype Account = Account(inbox: seq<Assigned>, given: nat, taken: nat, frees: nat)

  const NEW_ACCOUNT := Account([], 0, 0, 0)

  datatype Desk = Desk(line: seq<Waiter>, accounts: map<Waiter, Account>)

  const EMPTY_DESK := Desk([], map[])

  datatype Move =
    | Open(w: Waiter)
    | Free(w: Waiter)
    | Give(job: Assigned)
    | Take(w: Waiter)
    | Close(w: Waiter)

  /** Somebody is first in line and its channel is still full: the send would block, with the lock held. */
  predicate Jammed(d: Desk) {
    d.line != [] && d.line[0] in d.accounts && d.accounts[d.line[0]].inbox != []
  }

  predicate CanMove(d: Desk, m: Move) {
    match m
    case Open(w) => w !in d.accounts
    case Free(w) => w in d.accounts
    case Give(_) => d.line != [] && d.line[0] in d.accounts && !Jammed(d)
    case Take(w) => w in d.accounts && d.accounts[w].inbox != []
    case Close(w) => w in d.accounts
  }

  function AfterMove(d: Desk, m: Move): Desk
    requires CanMove(d, m)
  {
    match m
    case Open(w) => Desk(Enter(d.line, w), d.accounts[w := NEW_ACCOUNT])
    case Free(w) => Desk(Enter(d.line, w), d.accounts[w := d.accounts[w].(frees := d.accounts[w].frees + 1)])
    case Give(job) =>
      var a := d.accounts[d.line[0]];
      Desk(d.line[1..], d.accounts[d.line[0] := a.(inbox := [job], given := a.given + 1)])
    case Take(w) =>
      var a := d.accounts[w];
      d.(accounts := d.accounts[w := a.(inbox := a.inbox[1..], taken := a.taken + 1)])
    case Close(w) => d.(line := Leave(d.line, w.worker))
  }

  datatype Day = Dawn | Did(before: Day, move: Move)

  function DeskOf(day: Day): Desk {
    match day
    case Dawn => EMPTY_DESK
    case Did(d, m) => if CanMove(DeskOf(d), m) then AfterMove(DeskOf(d), m) else DeskOf(d)
  }

  predicate LegalDay(day: Day) {
    day.Did? ==> LegalDay(day.before) && CanMove(DeskOf(day.before), day.move)
  }

  predicate DeskInv(d: Desk) {
    && DistinctWorkers(d.line)
    && (forall v <- d.line :: v in d.accounts)
    && (forall w <- d.accounts ::
          var a := d.accounts[w];
          && |a.inbox| <= 1 && |a.inbox| + a.taken == a.given
          && a.given + (if w in d.line then 1 else 0) <= 1 + a.frees)
  }

  lemma HeadLeavesLine(line: seq<Waiter>)
    requires DistinctWorkers(line) && line != []
    ensures line[0] !in line[1..] && forall v <- line :: v == line[0] || v in line[1..]
  {
    var rest := line[1..];
    assert forall i | 0 <= i < |rest| :: rest[i] == line[i + 1];
    forall v <- line ensures v == line[0] || v in rest {
      var i :| 0 <= i < |line| && line[i] == v;
      if i > 0 { assert rest[i - 1] == v; }
    }
  }

  lemma MoveKeepsInv(d: Desk, m: Move)
    requires DeskInv(d) && CanMove(d, m)
    ensures DeskInv(AfterMove(d, m))
  {
    if m.Give? { HeadLeavesLine(d.line); }
    if m.Close? { LeaveDropsOne(d.line, m.w.worker); }
  }

  /** The line never names a worker twice, a channel never holds two jobs, and a stream is given at most one job
      more than its worker freed itself, the place it holds in line included. */
  lemma {:induction false} DeliveriesAreBounded(day: Day)
    requires LegalDay(day)
    ensures DeskInv(DeskOf(day))
  {
    if day.Did? {
      DeliveriesAreBounded(day.before);
      MoveKeepsInv(DeskOf(day.before), day.move);
    }
  }

  // ---------- First come, first served ----------

  /** `later` continues `day` by zero or more moves. */
  predicate DayOn(day: Day, later: Day) {
    later == day || (later.Did? && DayOn(day, later.before))
  }

  /** No stream of this worker ended in between. */
  predicate Stays(day: Day, later: Day, worker: WorkerId)
    requires DayOn(day, later)
  {
    later == day ||
    (Stays(day, later.before, worker) && (later.move.Close? ==> later.move.w.worker != worker))
  }

  /** `v` stands in line, and `w` does not stand before it. */
  predicate ComesFirst(line: seq<Waiter>, v: Waiter, w: Waiter) {
    exists i :: 0 <= i < |line| && line[i] == v && w !in line[..i]
  }

  /** How many jobs the stream was ever given. */
  function GivenTo(d: Desk, w: Waiter): nat { if w in d.accounts then d.accounts[w].given else 0 }

  lemma LeaveKeepsTurn(line: seq<Waiter>, v: Waiter, w: Waiter, worker: WorkerId)
    requires ComesFirst(line, v, w) && v.worker != worker
    ensures ComesFirst(Leave(line, worker), v, w)
  {
    var i :| 0 <= i < |line| && line[i] == v && w !in line[..i];
    if InLine(line, worker) {
      var k := SomebodyIsFirst(line, worker);
      var rest := Leave(line, worker);
      var j := if k < i then i - 1 else i;
      assert rest[j] == v;
      forall u <- rest[..j] ensures u in line[..i] {
        var n :| 0 <= n < j && rest[n] == u;
        assert u == line[..i][if n < k then n else n + 1];
      }
    }
  }

  lemma MoveKeepsTurn(d: Desk, m: Move, v: Waiter, w: Waiter)
    requires DeskInv(d) && CanMove(d, m) && v != w && ComesFirst(d.line, v, w)
    requires m.Close? ==> m.w.worker != v.worker
    ensures GivenTo(AfterMove(d, m), v) >= GivenTo(d, v)
    ensures GivenTo(AfterMove(d, m), v) > GivenTo(d, v) ||
            (ComesFirst(AfterMove(d, m).line, v, w) && GivenTo(AfterMove(d, m), w) == GivenTo(d, w))
  {
    var i :| 0 <= i < |d.line| && d.line[i] == v && w !in d.line[..i];
    assert v in d.line;
    var d' := AfterMove(d, m);
    match m
    case Give(_) =>
      if i > 0 {
        assert d.line[..i][0] == d.line[0];
        assert d'.line[i - 1] == v;
        forall u <- d'.line[..i - 1] ensures u in d.line[..i] {
          var n :| 0 <= n < i - 1 && d'.line[n] == u;
          assert u == d.line[..i][n + 1];
        }
      }
    case Close(x) => LeaveKeepsTurn(d.line, v, w, x.worker);
    case _ =>
      assert d'.line[..i] == d.line[..i];
  }

  lemma MoveGivesOnly(d: Desk, m: Move, v: Waiter)
    requires CanMove(d, m)
    ensures GivenTo(AfterMove(d, m), v) >= GivenTo(d, v)
  {}

  /** Nobody jumps the line, over any stretch of any day: as long as a waiter's worker does not leave, whoever does
      not stand before it is given nothing, comes and goes as it may, until the waiter itself was given a job. */
  lemma {:induction false} FirstComeFirstServed(day: Day, later: Day, v: Waiter, w: Waiter)
    requires LegalDay(later) && DayOn(day, later) && Stays(day, later, v.worker)
    requires v != w && ComesFirst(DeskOf(day).line, v, w)
    ensures GivenTo(DeskOf(later), v) >= GivenTo(DeskOf(day), v)
    ensures GivenTo(DeskOf(later), v) > GivenTo(DeskOf(day), v) ||
            (ComesFirst(DeskOf(later).line, v, w) && GivenTo(DeskOf(later), w) == GivenTo(DeskOf(day), w))
  {
    if later != day {
      FirstComeFirstServed(day, later.before, v, w);
      var d := DeskOf(later.before);
      DeliveriesAreBounded(later.before);
      MoveGivesOnly(d, later.move, v);
      if GivenTo(d, v) == GivenTo(DeskOf(day), v) { MoveKeepsTurn(d, later.move, v, w); }
    }
  }

  // ---------- When the send can block ----------

  /** Everybody in line has an empty channel. */
  predicate Roomy(d: Desk) {
    forall v <- d.line :: v in d.accounts && d.accounts[v].inbox == []
  }

  predicate AlwaysRoomy(day: Day) {
    Roomy(DeskOf(day)) && (day.Did? ==> AlwaysRoomy(day.before))
  }

  /** The move lets a worker back into the line while a job still sits in its channel. The registration could
      look before it appends. */
  predicate Crowds(d: Desk, m: Move) {
    m.Free? && m.w in d.accounts && !InLine(d.line, m.w.worker) && d.accounts[m.w].inbox != []
  }

  predicate Uncrowded(day: Day) {
    day.Did? ==> Uncrowded(day.before) && !Crowds(DeskOf(day.before), day.move)
  }

  lemma MoveKeepsRoomIff(d: Desk, m: Move)
    requires DeskInv(d) && Roomy(d) && CanMove(d, m)
    ensures Roomy(AfterMove(d, m)) <==> !Crowds(d, m)
  {
    var d' := AfterMove(d, m);
    if Crowds(d, m) {
      assert d'.line[|d.line|] == m.w;
      assert m.w in d'.line;
    } else if m.Give? {
      HeadLeavesLine(d.line);
    } else if m.Close? {
      LeaveDropsOne(d.line, m.w.worker);
    }
  }

  /** Over every day: everybody in line has an empty channel at all times if, and only if, nobody was ever let
      back in line with a job still in its channel. */
  lemma {:induction false} NeverJamsIff(day: Day)
    requires LegalDay(day)
    ensures AlwaysRoomy(day) <==> Uncrowded(day)
  {
    if day.Did? {
      NeverJamsIff(day.before);
      DeliveriesAreBounded(day.before);
      if AlwaysRoomy(day.before) { MoveKeepsRoomIff(DeskOf(day.before), day.move); }
    }
  }

  /** `later` adds deliveries to `day`, and nothing else. */
  predicate OnlyGives(day: Day, later: Day) {
    later == day || (later.Did? && later.move.Give? && OnlyGives(day, later.before))
  }

  predicate ServesUntilJammed(day: Day, later: Day) {
    OnlyGives(day, later) && LegalDay(later) && Jammed(DeskOf(later))
  }

  lemma {:induction false} GivesJoin(a: Day, b: Day, c: Day)
    requires OnlyGives(a, b) && OnlyGives(b, c)
    ensures OnlyGives(a, c)
  {
    if b != c { GivesJoin(a, b, c.before); }
  }

  lemma {:induction false} RoomyStaysRoomy(day: Day, later: Day)
    requires LegalDay(day) && LegalDay(later) && OnlyGives(day, later) && Roomy(DeskOf(day))
    ensures Roomy(DeskOf(later))
  {
    if day != later {
      RoomyStaysRoomy(day, later.before);
      DeliveriesAreBounded(later.before);
      MoveKeepsRoomIff(DeskOf(later.before), later.move);
    }
  }

  lemma {:induction false} CrowdedLineJams(day: Day, job: Assigned) returns (later: Day)
    requires LegalDay(day) && !Roomy(DeskOf(day))
    ensures LegalDay(later) && OnlyGives(day, later) && Jammed(DeskOf(later))
    decreases |DeskOf(day).line|
  {
    DeliveriesAreBounded(day);
    var d := DeskOf(day);
    var v :| v in d.line && d.accounts[v].inbox != [];
    if Jammed(d) { return day; }
    assert d.line[0] in d.line;
    HeadLeavesLine(d.line);
    var next := Did(day, Give(job));
    assert v in DeskOf(next).line && DeskOf(next).accounts[v] == d.accounts[v];
    later := CrowdedLineJams(next, job);
    assert OnlyGives(day, next);
    GivesJoin(day, next, later);
  }

  /** What is at stake: a line in which everybody's channel is empty can be served to its end, whatever the jobs,
      and any other line blocks the pass that serves it, if enough jobs are there before the stream reads. */
  lemma {:induction false} SendCanBlockIff(day: Day)
    requires LegalDay(day)
    ensures (exists later :: ServesUntilJammed(day, later)) <==> !Roomy(DeskOf(day))
  {
    if later :| ServesUntilJammed(day, later) {
      if Roomy(DeskOf(day)) { RoomyStaysRoomy(day, later); }
    } else if !Roomy(DeskOf(day)) {
      var later := CrowdedLineJams(day, Assigned("", 0));
      assert ServesUntilJammed(day, later);
    }
  }

  /** Every worker frees itself at most once per job it was actually sent. */
  predicate Disciplined(day: Day) {
    && (forall w <- DeskOf(day).accounts :: DeskOf(day).accounts[w].frees <= DeskOf(day).accounts[w].taken)
    && (day.Did? ==> Disciplined(day.before))
  }

  lemma {:induction false} DisciplineNeverCrowds(day: Day)
    requires LegalDay(day) && Disciplined(day)
    ensures Uncrowded(day)
  {
    if day.Did? {
      DisciplineNeverCrowds(day.before);
      DeliveriesAreBounded(day);
      var d, m := DeskOf(day.before), day.move;
      if m.Free? && !InLine(d.line, m.w.worker) {
        var d' := DeskOf(day);
        assert d'.line[|d.line|] == m.w;
        assert m.w in d'.line && d'.accounts[m.w].frees <= d'.accounts[m.w].taken;
        assert d'.accounts[m.w].inbox == [];
      }
    }
  }

  /** With disciplined workers the line is never crowded, so the send never blocks. */
  lemma DisciplineNeverJams(day: Day)
    requires LegalDay(day) && Disciplined(day)
    ensures AlwaysRoomy(day) && !Jammed(DeskOf(day))
  {
    DisciplineNeverCrowds(day);
    NeverJamsIff(day);
  }

  /** The stream was sent a job it has not freed itself of yet. */
  predicate Owes(day: Day, w: Waiter) {
    w in DeskOf(day).accounts && DeskOf(day).accounts[w].frees < DeskOf(day).accounts[w].taken
  }

  lemma MoveKeepsDiscipline(day: Day, m: Move)
    requires LegalDay(day) && Disciplined(day) && CanMove(DeskOf(day), m)
    requires m.Free? ==> Owes(day, m.w)
    ensures Disciplined(Did(day, m))
  {
    var d, d' := DeskOf(day), AfterMove(DeskOf(day), m);
    forall w <- d'.accounts ensures d'.accounts[w].frees <= d'.accounts[w].taken {
      if w in d.accounts { assert d.accounts[w].frees <= d.accounts[w].taken; }
    }
  }

  /** Discipline is more than the line needs: a second message that frees a worker already in line is harmless. */
  lemma DisciplineIsNotNeeded(w: Waiter)
    ensures
      var day := Did(Did(Dawn, Open(w)), Free(w));
      LegalDay(day) && AlwaysRoomy(day) && !Disciplined(day)
  {
    var d1 := Did(Dawn, Open(w));
    assert DeskOf(d1) == Desk([w], map[w := NEW_ACCOUNT]);
    assert DeskOf(d1).line[0] == w;
    var day := Did(d1, Free(w));
    assert DeskOf(day).line == [w] && DeskOf(day).accounts[w] == Account([], 0, 0, 1);
    NeverJamsIff(day);
  }

  lemma MoveOn(day: Day, m: Move)
    requires LegalDay(day) && CanMove(DeskOf(day), m)
    ensures LegalDay(Did(day, m)) && DeskOf(Did(day, m)) == AfterMove(DeskOf(day), m)
  {}

  /** How a line gets crowded. Take any desk with an empty line and a stream whose channel is empty: a refused
      heartbeat and the late report of the same job free the worker twice, and the second registration meets
      the job the first one was given. */
  lemma DoubleFreeJams(day: Day, w: Waiter, job: Assigned)
    requires LegalDay(day) && DeskOf(day).line == [] && w in DeskOf(day).accounts && DeskOf(day).accounts[w].inbox == []
    ensures LegalDay(Did(Did(Did(day, Free(w)), Give(job)), Free(w)))
    ensures Jammed(DeskOf(Did(Did(Did(day, Free(w)), Give(job)), Free(w))))
  {
    var d1 := Did(day, Free(w));
    MoveOn(day, Free(w));
    assert DeskOf(d1).line == [w];
    MoveOn(d1, Give(job));
    MoveOn(Did(d1, Give(job)), Free(w));
    assert DeskOf(Did(Did(d1, Give(job)), Free(w))).line == [w];
  }

  /** Such a desk is reached as soon as one worker has been sent one job. */
  lemma OneJobSentLeavesIdleStream(w: Waiter, job: Assigned)
    ensures
      var day := Did(Did(Did(Dawn, Open(w)), Give(job)), Take(w));
      LegalDay(day) && DeskOf(day).line == [] && w in DeskOf(day).accounts && DeskOf(day).accounts[w].inbox == []
  {
    MoveOn(Dawn, Open(w));
    assert DeskOf(Did(Dawn, Open(w))).line == [w];
    MoveOn(Did(Dawn, Open(w)), Give(job));
    MoveOn(Did(Did(Dawn, Open(w)), Give(job)), Take(w));
  }
}
