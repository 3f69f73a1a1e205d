/** Leader election through one leased row, and the leadership loop each server runs around it.
    Nodes are told nothing when they lose: several may believe they lead at once. */
module Election {
  import opened Jobs
  import opened QueueMachine

  type NodeId = string

  /** The single `leadership` row; holder "" is nobody. */
  datatype LeaderRow = LeaderRow(holder: NodeId, term: int, expires: Time)

  const EPOCH: Time := 0

  const SEED_ROW := LeaderRow("", 0, EPOCH)

  // ---------- The three statements ----------

  predicate CanCampaign(row: LeaderRow, now: Time) { row.expires < now }

  function Campaign(row: LeaderRow, n: NodeId, lease: Time, now: Time): LeaderRow {
    if CanCampaign(row, now) then LeaderRow(n, row.term + 1, now + lease) else row
  }

  predicate CanRenew(row: LeaderRow, n: NodeId, now: Time) { row.holder == n && row.expires >= now }

  function Renew(row: LeaderRow, n: NodeId, lease: Time, now: Time): LeaderRow {
    if CanRenew(row, n, now) then row.(expires := now + lease) else row
  }

  function Resign(row: LeaderRow, n: NodeId): LeaderRow {
    if row.holder == n then row.(holder := "", expires := EPOCH) else row
  }

  // ---------- The nodes ----------

  /** Where `Leadership.Run` stands: polling for the lease; told it won; inside Hold; told it lost;
      demoted on shutdown with the resignation still to send; returned. */
  datatype Phase = Seeking | Elected(t: int) | Reigning | Deposed | Leaving | Stopped

  /** `won` is every term this node was ever told it won. A dispatch pass or a reaper reads the term once
      and may act on it long after, so any of these may still be stamped into a claim or a sweep. */
  datatype Node = Node(phase: Phase, isLead: bool, term: int, won: set<int>)

  const FRESH_NODE := Node(Seeking, false, 0, {})

  datatype Elect = Elect(now: Time, row: LeaderRow, nodes: map<NodeId, Node>)

  datatype Vote =
    | Elapse(to: Time)
    | Join(n: NodeId)
    | Campaigning(n: NodeId, fault: Fault)
    | BecomeLead(n: NodeId)
    | Renewing(n: NodeId, fault: Fault)
    | Demote(n: NodeId)
    | Shutdown(n: NodeId)
    | Resigning(n: NodeId, fault: Fault)
    | Crash(n: NodeId)

  predicate PhaseIs(s: Elect, n: NodeId, ph: Phase) { n in s.nodes && s.nodes[n].phase == ph }

  predicate CanVote(s: Elect, v: Vote) {
    match v
    case Elapse(to) => s.now <= to
    case Join(n) => n != "" && n !in s.nodes
    case Campaigning(n, _) => PhaseIs(s, n, Seeking)
    case BecomeLead(n) => n in s.nodes && s.nodes[n].phase.Elected?
    case Renewing(n, _) => PhaseIs(s, n, Reigning)
    case Demote(n) => PhaseIs(s, n, Deposed)
    case Shutdown(n) => PhaseIs(s, n, Seeking) || PhaseIs(s, n, Reigning)
    case Resigning(n, _) => PhaseIs(s, n, Leaving)
    case Crash(n) => n in s.nodes
  }

  function WithNode(s: Elect, n: NodeId, node: Node): Elect { s.(nodes := s.nodes[n := node]) }

  function AfterVote(lease: Time, s: Elect, v: Vote): Elect
    requires CanVote(s, v)
  {
    match v
    case Elapse(to) => s.(now := to)
    case Join(n) => WithNode(s, n, FRESH_NODE)
    case Campaigning(n, f) =>
      var s' := if f.Dropped? then s else s.(row := Campaign(s.row, n, lease, s.now));
      if f.NoFault? && CanCampaign(s.row, s.now)
      then WithNode(s', n, s.nodes[n].(phase := Elected(s'.row.term), won := s.nodes[n].won + {s'.row.term}))
      else s'
    case BecomeLead(n) => WithNode(s, n, s.nodes[n].(phase := Reigning, isLead := true, term := s.nodes[n].phase.t))
    case Renewing(n, f) =>
      var s' := if f.Dropped? then s else s.(row := Renew(s.row, n, lease, s.now));
      if f.NoFault? && !CanRenew(s.row, n, s.now) then WithNode(s', n, s.nodes[n].(phase := Deposed)) else s'
    case Demote(n) => WithNode(s, n, s.nodes[n].(phase := Seeking, isLead := false))
    case Shutdown(n) =>
      WithNode(s, n, s.nodes[n].(phase := if s.nodes[n].isLead then Leaving else Stopped, isLead := false))
    case Resigning(n, f) =>
      var s' := if f.Dropped? then s else s.(row := Resign(s.row, n));
      WithNode(s', n, s.nodes[n].(phase := Stopped))
    case Crash(n) => WithNode(s, n, s.nodes[n].(phase := Stopped, isLead := false))
  }

  // ---------- The invariant ----------

  predicate NodeInv(row: LeaderRow, n: NodeId, node: Node) {
    && (forall t <- node.won :: 1 <= t <= row.term)
    && (node.isLead <==> node.phase.Reigning? || node.phase.Deposed?)
    && (node.isLead ==> node.term in node.won)
    && (node.phase.Elected? ==> node.phase.t in node.won)
    // The row never names a leading node under a term other than its own, nor its term without naming it.
    && (node.isLead ==> (row.holder == n <==> row.term == node.term))
    && (node.phase.Elected? ==> (row.holder == n <==> row.term == node.phase.t))
  }

  predicate ElectInv(s: Elect) {
    && s.row.term >= 0
    && s.now > EPOCH
    && "" !in s.nodes
    && (forall n <- s.nodes :: NodeInv(s.row, n, s.nodes[n]))
    && (forall m <- s.nodes, n <- s.nodes | m != n :: s.nodes[m].won !! s.nodes[n].won)
    && (s.row.holder != "" ==> s.row.holder in s.nodes && s.row.term >= 1)
  }

  /** A history of the election, newest vote last. */
  datatype Polls = Opened(start: Elect) | Voted(before: Polls, vote: Vote)

  predicate LegalPolls(lease: Time, h: Polls) {
    match h
    case Opened(s) => s.row == SEED_ROW && s.nodes == map[] && s.now > EPOCH
    case Voted(g, v) => LegalPolls(lease, g) && CanVote(ElectOf(lease, g), v)
  }

  function ElectOf(lease: Time, h: Polls): Elect {
    match h
    case Opened(s) => s
    case Voted(g, v) => if CanVote(ElectOf(lease, g), v) then AfterVote(lease, ElectOf(lease, g), v) else ElectOf(lease, g)
  }

  /** `later` continues `h` by zero or more votes. */
  predicate PollsOn(h: Polls, later: Polls) {
    h == later || (later.Voted? && PollsOn(h, later.before))
  }

  lemma {:induction false} PollsOnAcross(a: Polls, b: Polls, c: Polls)
    requires PollsOn(a, b) && PollsOn(b, c)
    ensures PollsOn(a, c)
  {
    if b != c { PollsOnAcross(a, b, c.before); }
  }

  /** Campaigns and renewals are what a node asks of the store in its loops. */
  predicate Asks(v: Vote, n: NodeId) { (v.Campaigning? || v.Renewing?) && v.n == n }

  /** Everything node `n` asked between `h` and `later`, in order. */
  function Asked(h: Polls, later: Polls, n: NodeId): seq<Vote>
    requires PollsOn(h, later)
  {
    if h == later then [] else Asked(h, later.before, n) + if Asks(later.vote, n) then [later.vote] else []
  }

  function PollsLength(h: Polls): nat { if h.Opened? then 0 else 1 + PollsLength(h.before) }

  lemma {:induction false} LaterPollsAreLonger(h: Polls, later: Polls)
    requires PollsOn(h, later)
    ensures h == later || PollsLength(h) < PollsLength(later)
  {
    if h != later { LaterPollsAreLonger(h, later.before); }
  }

  lemma {:induction false} AskedAcross(a: Polls, b: Polls, c: Polls, n: NodeId)
    requires PollsOn(a, b) && PollsOn(b, c)
    ensures PollsOn(a, c) && Asked(a, c, n) == Asked(a, b, n) + Asked(b, c, n)
  {
    PollsOnAcross(a, b, c);
    if b != c {
      AskedAcross(a, b, c.before, n);
      LaterPollsAreLonger(a, c.before);
    }
  }

  lemma AskedNow(h: Polls, to: Time, v: Vote, n: NodeId)
    ensures PollsOn(h, Voted(Voted(h, Elapse(to)), v))
    ensures Asked(h, Voted(Voted(h, Elapse(to)), v), n) == if Asks(v, n) then [v] else []
  {
    var h1, h2 := Voted(h, Elapse(to)), Voted(Voted(h, Elapse(to)), v);
    assert PollsOn(h, h1) && PollsOn(h, h2);
    assert PollsLength(h2) == PollsLength(h1) + 1 == PollsLength(h) + 2;
    assert h1 != h && h2 != h;
    assert Asked(h, h, n) == [] && Asked(h, h1, n) == [];
  }

  lemma VoteKeepsNode(lease: Time, s: Elect, v: Vote, n: NodeId)
    requires ElectInv(s) && CanVote(s, v) && n in AfterVote(lease, s, v).nodes
    ensures NodeInv(AfterVote(lease, s, v).row, n, AfterVote(lease, s, v).nodes[n])
  {
    if n in s.nodes { assert NodeInv(s.row, n, s.nodes[n]); }
  }

  /** A node learns of a term only by winning it, and what it wins is new. */
  lemma WonTermsAreNew(lease: Time, s: Elect, v: Vote, n: NodeId)
    requires ElectInv(s) && CanVote(s, v) && n in AfterVote(lease, s, v).nodes
    ensures
      var was := if n in s.nodes then s.nodes[n].won else {};
      var won := AfterVote(lease, s, v).nodes[n].won;
      won == was || (v.Campaigning? && v.n == n && won == was + {s.row.term + 1})
  {}

  lemma VoteKeepsInv(lease: Time, s: Elect, v: Vote)
    requires ElectInv(s) && CanVote(s, v)
    ensures ElectInv(AfterVote(lease, s, v))
  {
    var s' := AfterVote(lease, s, v);
    forall n <- s'.nodes ensures NodeInv(s'.row, n, s'.nodes[n]) {
      VoteKeepsNode(lease, s, v, n);
    }
    forall m <- s'.nodes, n <- s'.nodes | m != n ensures s'.nodes[m].won !! s'.nodes[n].won {
      WonTermsAreNew(lease, s, v, m);
      WonTermsAreNew(lease, s, v, n);
      if m in s.nodes && n in s.nodes {
        assert NodeInv(s.row, m, s.nodes[m]) && NodeInv(s.row, n, s.nodes[n]);
      }
    }
  }

  lemma {:induction false} ElectInvHolds(lease: Time, h: Polls)
    requires LegalPolls(lease, h)
    ensures ElectInv(ElectOf(lease, h))
  {
    if h.Voted? {
      ElectInvHolds(lease, h.before);
      VoteKeepsInv(lease, ElectOf(lease, h.before), h.vote);
    }
  }

  // ---------- What the election promises ----------

  /** The contract the fences are built on: a win's term is above every term anybody was ever told of,
      and above every term the row has carried, told of or not. */
  lemma EachWinIsAboveAllEarlier(lease: Time, h: Polls, n: NodeId)
    requires LegalPolls(lease, h)
    requires CanVote(ElectOf(lease, h), Campaigning(n, NoFault))
    requires CanCampaign(ElectOf(lease, h).row, ElectOf(lease, h).now)
    ensures
      var s := ElectOf(lease, h);
      var s' := AfterVote(lease, s, Campaigning(n, NoFault));
      && s'.nodes[n].phase == Elected(s'.row.term) && s'.row.holder == n
      && s'.row.term > s.row.term
      && (forall m <- s.nodes, t <- s.nodes[m].won :: t < s'.row.term)
  {
    ElectInvHolds(lease, h);
  }

  lemma {:induction false} RowTermNeverFalls(lease: Time, h: Polls, later: Polls)
    requires LegalPolls(lease, later) && PollsOn(h, later)
    ensures ElectOf(lease, h).row.term <= ElectOf(lease, later).row.term
  {
    if h != later { RowTermNeverFalls(lease, h, later.before); }
  }

  /** The term is above every term the row has carried at any point of the history. */
  ghost predicate AboveAllOf(lease: Time, h: Polls, t: int) {
    forall earlier | PollsOn(earlier, h) :: ElectOf(lease, earlier).row.term < t
  }

  lemma HigherIsAboveAll(lease: Time, h: Polls, t: int)
    requires LegalPolls(lease, h) && ElectOf(lease, h).row.term < t
    ensures AboveAllOf(lease, h, t)
  {
    forall earlier | PollsOn(earlier, h) ensures ElectOf(lease, earlier).row.term < t {
      RowTermNeverFalls(lease, earlier, h);
    }
  }

  /** Two nodes that believe they lead never share a term, and the one whose term is the row's is its holder. */
  lemma BelieversNeverShareATerm(lease: Time, h: Polls, m: NodeId, n: NodeId)
    requires LegalPolls(lease, h)
    requires m in ElectOf(lease, h).nodes && n in ElectOf(lease, h).nodes
    requires ElectOf(lease, h).nodes[m].isLead && ElectOf(lease, h).nodes[n].isLead
    ensures
      var s := ElectOf(lease, h);
      && (s.nodes[m].term == s.nodes[n].term <==> m == n)
      && (s.nodes[n].term == s.row.term <==> s.row.holder == n)
      && s.nodes[n].term <= s.row.term
  {
    ElectInvHolds(lease, h);
    var s := ElectOf(lease, h);
    assert NodeInv(s.row, m, s.nodes[m]) && NodeInv(s.row, n, s.nodes[n]);
    if m != n {
      assert s.nodes[m].won !! s.nodes[n].won;
    }
  }

  /** A renewal granted inside Hold returns the node's own term, so throwing it away loses nothing. It is refused,
      for good, exactly when the row names somebody else or the lease has lapsed: a stalled leader cannot
      resurrect its lease. */
  lemma RenewalReturnsOwnTerm(lease: Time, h: Polls, n: NodeId)
    requires LegalPolls(lease, h) && CanVote(ElectOf(lease, h), Renewing(n, NoFault))
    ensures
      var s := ElectOf(lease, h);
      var s' := AfterVote(lease, s, Renewing(n, NoFault));
      && (s'.nodes[n].phase.Deposed? <==> s.row.holder != n || s.row.expires < s.now)
      && (s'.nodes[n].phase.Deposed? ==> s'.row == s.row)
      && (!s'.nodes[n].phase.Deposed? ==>
            && s'.row == LeaderRow(n, s.nodes[n].term, s.now + lease) && s'.nodes[n] == s.nodes[n] && s'.nodes[n].isLead)
  {
    ElectInvHolds(lease, h);
    var s := ElectOf(lease, h);
    assert NodeInv(s.row, n, s.nodes[n]);
  }

  /** A resignation that lands frees the row at once: whoever campaigns next wins, at the next term. */
  lemma ResignationHandsOverAtOnce(lease: Time, h: Polls, n: NodeId, m: NodeId)
    requires LegalPolls(lease, h) && CanVote(ElectOf(lease, h), Resigning(n, NoFault))
    requires ElectOf(lease, h).row.holder == n
    ensures
      var s := AfterVote(lease, ElectOf(lease, h), Resigning(n, NoFault));
      && CanCampaign(s.row, s.now) && s.row.term == ElectOf(lease, h).row.term
      && Campaign(s.row, m, lease, s.now) == LeaderRow(m, s.row.term + 1, s.now + lease)
  {
    ElectInvHolds(lease, h);
  }

  // ---------- Reigns ----------

  /** One stretch of the row naming one holder: from its win until its lease ran out or it resigned. */
  datatype Reign = Reign(holder: NodeId, term: int, from: Time, until: Time, resigned: bool)

  function UpdateLast(rs: seq<Reign>, r: Reign): seq<Reign>
    requires rs != []
  {
    rs[..|rs| - 1] + [r]
  }

  predicate Takes(s: Elect, v: Vote) { v.Campaigning? && !v.fault.Dropped? && CanCampaign(s.row, s.now) }

  predicate Keeps(s: Elect, v: Vote) { v.Renewing? && !v.fault.Dropped? && CanRenew(s.row, v.n, s.now) }

  predicate Yields(s: Elect, v: Vote) { v.Resigning? && !v.fault.Dropped? && s.row.holder == v.n }

  function NextReigns(lease: Time, s: Elect, v: Vote, rs: seq<Reign>): seq<Reign> {
    if Takes(s, v) then rs + [Reign(v.n, s.row.term + 1, s.now, s.now + lease, false)]
    else if rs == [] then rs
    else
      var last := rs[|rs| - 1];
      if Keeps(s, v) then UpdateLast(rs, last.(until := s.now + lease))
      else if Yields(s, v) then UpdateLast(rs, last.(until := Min(last.until, s.now), resigned := true))
      else rs
  }

  function Reigns(lease: Time, h: Polls): seq<Reign> {
    match h
    case Opened(_) => []
    case Voted(g, v) => NextReigns(lease, ElectOf(lease, g), v, Reigns(lease, g))
  }

  /** The row shows the last reign: its lease, or that it resigned. */
  predicate RowShows(s: Elect, rs: seq<Reign>) {
    && |rs| == s.row.term
    && (rs == [] ==> s.row.holder == "" && s.row.expires == EPOCH)
    && (rs != [] ==>
          var last := rs[|rs| - 1];
          && last.from <= s.now && last.from <= last.until
          && (last.resigned <==> s.row.holder == "")
          && (last.resigned ==> last.until <= s.now && s.row.expires == EPOCH)
          && (!last.resigned ==> s.row.holder == last.holder && s.row.expires == last.until))
  }

  /** Terms count up from one; each reign is over before the next begins, strictly so unless it resigned. */
  predicate InSuccession(rs: seq<Reign>) {
    && (forall i | 0 <= i < |rs| :: rs[i].term == i + 1 && rs[i].from <= rs[i].until)
    && (forall i, j | 0 <= i < j < |rs| ::
          rs[i].until <= rs[j].from && (!rs[i].resigned ==> rs[i].until < rs[j].from))
  }

  lemma AppendReign(rs: seq<Reign>, r: Reign)
    requires InSuccession(rs) && r.term == |rs| + 1 && r.from <= r.until
    requires rs != [] ==>
      var last := rs[|rs| - 1];
      last.until <= r.from && (!last.resigned ==> last.until < r.from)
    ensures InSuccession(rs + [r])
  {}

  lemma UpdateKeepsSuccession(rs: seq<Reign>, r: Reign)
    requires InSuccession(rs) && rs != []
    requires r.term == |rs| && r.from == rs[|rs| - 1].from && r.from <= r.until
    ensures InSuccession(UpdateLast(rs, r))
  {
    var us := UpdateLast(rs, r);
    assert forall i | 0 <= i < |rs| - 1 :: us[i] == rs[i];
  }

  lemma RowChanges(lease: Time, s: Elect, v: Vote)
    requires ElectInv(s) && CanVote(s, v)
    ensures
      var s' := AfterVote(lease, s, v);
      && s.now <= s'.now
      && (!v.Elapse? ==> s'.now == s.now)
      && s'.row == (if Takes(s, v) then LeaderRow(v.n, s.row.term + 1, s.now + lease)
                    else if Keeps(s, v) then s.row.(expires := s.now + lease)
                    else if Yields(s, v) then s.row.(holder := "", expires := EPOCH)
                    else s.row)
      && (Takes(s, v) || Keeps(s, v) || Yields(s, v) ==> v.n != "")
  {}

  lemma TakingStep(lease: Time, s: Elect, v: Vote, rs: seq<Reign>)
    requires ElectInv(s) && CanVote(s, v) && lease >= 0 && Takes(s, v)
    requires InSuccession(rs) && RowShows(s, rs)
    ensures InSuccession(NextReigns(lease, s, v, rs)) && RowShows(AfterVote(lease, s, v), NextReigns(lease, s, v, rs))
  {
    RowChanges(lease, s, v);
    AppendReign(rs, Reign(v.n, s.row.term + 1, s.now, s.now + lease, false));
  }

  lemma EditingStep(lease: Time, s: Elect, v: Vote, rs: seq<Reign>)
    requires ElectInv(s) && CanVote(s, v) && lease >= 0 && rs != [] && (Keeps(s, v) || Yields(s, v))
    requires InSuccession(rs) && RowShows(s, rs)
    ensures InSuccession(NextReigns(lease, s, v, rs)) && RowShows(AfterVote(lease, s, v), NextReigns(lease, s, v, rs))
  {
    RowChanges(lease, s, v);
    var last := rs[|rs| - 1];
    if Keeps(s, v) {
      UpdateKeepsSuccession(rs, last.(until := s.now + lease));
    } else {
      UpdateKeepsSuccession(rs, last.(until := Min(last.until, s.now), resigned := true));
    }
  }

  lemma ReignStep(lease: Time, s: Elect, v: Vote, rs: seq<Reign>)
    requires ElectInv(s) && CanVote(s, v) && lease >= 0
    requires InSuccession(rs) && RowShows(s, rs)
    ensures InSuccession(NextReigns(lease, s, v, rs)) && RowShows(AfterVote(lease, s, v), NextReigns(lease, s, v, rs))
  {
    if Takes(s, v) {
      TakingStep(lease, s, v, rs);
    } else if rs != [] && (Keeps(s, v) || Yields(s, v)) {
      EditingStep(lease, s, v, rs);
    } else {
      RowChanges(lease, s, v);
    }
  }

  /** Over every history, the reigns the row records are pairwise disjoint in time, with terms counting up,
      and the row passes from a holder only after its lease lapsed or it resigned. */
  lemma {:induction false} ReignsAreDisjoint(lease: Time, h: Polls)
    requires LegalPolls(lease, h) && lease >= 0
    ensures InSuccession(Reigns(lease, h)) && RowShows(ElectOf(lease, h), Reigns(lease, h))
  {
    if h.Voted? {
      ReignsAreDisjoint(lease, h.before);
      ElectInvHolds(lease, h.before);
      ReignStep(lease, ElectOf(lease, h.before), h.vote, Reigns(lease, h.before));
    }
  }

  /** The row is there for the taking exactly when nobody ever led, the last leader resigned, or its lease ran
      out: a clean shutdown costs the cluster nothing, a crash the rest of one lease. */
  lemma VacantIff(lease: Time, h: Polls)
    requires LegalPolls(lease, h) && lease >= 0
    ensures
      var s, rs := ElectOf(lease, h), Reigns(lease, h);
      CanCampaign(s.row, s.now) <==> rs == [] || rs[|rs| - 1].resigned || rs[|rs| - 1].until < s.now
  {
    ReignsAreDisjoint(lease, h);
    ElectInvHolds(lease, h);
  }
}
