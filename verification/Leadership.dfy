/** The election loops one server runs: campaigning for and holding the leased row, and the leadership object
    that opens a context per reign. What the rest of the cluster does in between is a script of votes.

    Every statement and every change of a node's standing is noted in a history of the election (see Election),
    so whatever is proved of all histories holds of these loops. */
module Leadership {
  import opened Jobs
  import opened QueueMachine
  import opened Election
  import opened Store

  /** One round of a polling loop: what rivals did since the last one, how this node's own statement fares,
      and whether its context is seen to have ended before or after it. */
  datatype Poll = Poll(rivals: seq<Vote>, fault: Fault, endedBefore: bool, endedAfter: bool)

  /** The vote is not this node's. */
  predicate ByRival(n: NodeId, v: Vote) { v.Elapse? || v.n != n }

  predicate RivalsOf(n: NodeId, polls: seq<Poll>) {
    forall p <- polls, v <- p.rivals :: ByRival(n, v)
  }

  /** The campaigns of the first `k` rounds, one a round. */
  function Bids(n: NodeId, script: seq<Poll>, k: nat): seq<Vote>
    requires k <= |script|
  {
    if k == 0 then [] else Bids(n, script, k - 1) + [Campaigning(n, script[k - 1].fault)]
  }

  /** An answer that comes back after the context ended is not looked at: to the node it is lost. */
  function Seen(poll: Poll): Fault { if poll.fault.NoFault? && poll.endedAfter then ReplyLost else poll.fault }

  /** The renewals of the first `k` rounds, one a round. */
  function Renewals(n: NodeId, script: seq<Poll>, k: nat): seq<Vote>
    requires k <= |script|
  {
    if k == 0 then [] else Renewals(n, script, k - 1) + [Renewing(n, Seen(script[k - 1]))]
  }

  /** After `k` rounds the campaigner may give up, and not before: the context ended, with the script or after the last
      answer. */
  predicate CampaignOver(script: seq<Poll>, k: nat) {
    && k <= |script| && (k == |script| || (0 < k && script[k - 1].endedAfter))
    && forall i | 0 <= i < k - 1 :: !script[i].endedAfter
  }

  /** After `k` rounds the leader may stop, and not before: the context ended, with the script, before the next
      renewal or during the last. */
  predicate HoldOver(script: seq<Poll>, k: nat) {
    && k <= |script| && (k == |script| || script[k].endedBefore || (0 < k && script[k - 1].endedAfter))
    && (forall i | 0 <= i < k :: !script[i].endedBefore) && (forall i | 0 <= i < k - 1 :: !script[i].endedAfter)
  }

  /** How many of the first `k` rounds the store answered. */
  function Answered(script: seq<Poll>, k: nat): nat
    requires k <= |script|
  {
    if k == 0 then 0 else Answered(script, k - 1) + if script[k - 1].fault.NoFault? then 1 else 0
  }

  class PostgresElection {
    const store: PostgresStore
    const nodeID: NodeId
    const lease: Time
    var peers: map<NodeId, Node>  // where every node stands, this one included; the loops never read it
    ghost var polls: Polls        // everything that happened in the election so far

    ghost predicate Valid()
      reads this`peers, this`polls, store`clock, store`leader
    {
      && LegalPolls(lease, polls) && ElectOf(lease, polls) == Elect(store.clock, store.leader, peers)
      && nodeID != "" && nodeID in peers
    }

    ghost function Me(): Node
      requires nodeID in peers
      reads this`peers
    {
      peers[nodeID]
    }

    constructor (store: PostgresStore, nodeID: NodeId, lease: Time, peers: map<NodeId, Node>, ghost past: Polls)
      requires LegalPolls(lease, past) && ElectOf(lease, past) == Elect(store.clock, store.leader, peers)
      requires nodeID != "" && nodeID !in peers
      ensures this.store == store && this.nodeID == nodeID && this.lease == lease
      ensures Valid() && Me() == FRESH_NODE && polls == Voted(past, Join(nodeID))
    {
      this.store, this.nodeID, this.lease := store, nodeID, lease;
      this.peers := peers[nodeID := FRESH_NODE];
      polls := Voted(past, Join(nodeID));
    }

    /** Notes a vote cast at this moment, on the row as it was before. */
    method Record(v: Vote, row: LeaderRow)
      requires LegalPolls(lease, polls) && nodeID != "" && nodeID in peers
      requires ElectOf(lease, polls).row == row && ElectOf(lease, polls).nodes == peers
      requires ElectOf(lease, polls).now <= store.clock && !v.Elapse? && CanVote(Elect(store.clock, row, peers), v)
      requires store.leader == AfterVote(lease, Elect(store.clock, row, peers), v).row
      modifies this`peers, this`polls
      ensures Valid() && peers == AfterVote(lease, Elect(store.clock, row, old(peers)), v).nodes
      ensures PollsOn(old(polls), polls) && polls == Voted(Voted(old(polls), Elapse(store.clock)), v)
      ensures Asked(old(polls), polls, nodeID) == if Asks(v, nodeID) then [v] else []
    {
      AskedNow(polls, store.clock, v, nodeID);
      peers := AfterVote(lease, Elect(store.clock, row, peers), v).nodes;
      polls := Voted(Voted(polls, Elapse(store.clock)), v);
    }

    /** A rival's vote, if it is in a position to cast it. */
    method Rival(v: Vote)
      requires Valid() && ByRival(nodeID, v)
      modifies this`peers, this`polls, store`clock, store`leader
      ensures Valid() && PollsOn(old(polls), polls) && Me() == old(Me()) && Asked(old(polls), polls, nodeID) == []
      ensures store.clock >= old(store.clock) && store.leader.term >= old(store.leader).term
    {
      if v.Elapse? || !CanVote(Elect(store.clock, store.leader, peers), v) { return; }
      var row := store.leader;
      match v {
        case Campaigning(n, f) => var _ := store.Campaign(n, lease, f);
        case Renewing(n, f) => var _ := store.RenewLeadership(n, lease, f);
        case Resigning(n, f) => var _ := store.ResignLeadership(n, f);
        case Elapse(_) =>
        case _ => store.Elapse();
      }
      Record(v, row);
    }

    method Interfere(rivals: seq<Vote>)
      requires Valid() && forall v <- rivals :: ByRival(nodeID, v)
      modifies this`peers, this`polls, store`clock, store`leader
      ensures Valid() && PollsOn(old(polls), polls) && Me() == old(Me()) && Asked(old(polls), polls, nodeID) == []
      ensures store.clock >= old(store.clock) && store.leader.term >= old(store.leader).term
    {
      for i := 0 to |rivals|
        invariant Valid() && PollsOn(old(polls), polls) && Me() == old(Me()) && Asked(old(polls), polls, nodeID) == []
        invariant store.clock >= old(store.clock) && store.leader.term >= old(store.leader).term
      {
        assert rivals[i] in rivals;
        ghost var before := polls;
        Rival(rivals[i]);
        AskedAcross(old(polls), before, polls, nodeID);
      }
    }

    /** One round of campaigning: whatever rivals do first, then a try at the row. A win carries a term above every term
        the row has ever carried. */
    method TryCampaign(poll: Poll) returns (won: Option<int>)
      requires Valid() && Me().phase.Seeking? && forall v <- poll.rivals :: ByRival(nodeID, v)
      modifies this`peers, this`polls, store`clock, store`leader
      ensures Valid() && PollsOn(old(polls), polls) && store.clock >= old(store.clock)
      ensures store.leader.term >= old(store.leader).term
      ensures Asked(old(polls), polls, nodeID) == [Campaigning(nodeID, poll.fault)]
      ensures won.None? ==> Me() == old(Me())
      ensures won.Some? ==> poll.fault.NoFault?
      ensures won.Some? ==>
        && Me() == old(Me()).(phase := Elected(won.value), won := old(Me()).won + {won.value})
        && store.leader == LeaderRow(nodeID, won.value, store.clock + lease) && won.value > old(store.leader).term
        && polls.Voted? && polls.vote == Campaigning(nodeID, NoFault) && AboveAllOf(lease, polls.before, won.value)
    {
      Interfere(poll.rivals);
      ghost var p1 := polls;
      var row := store.leader;
      var r := store.Campaign(nodeID, lease, poll.fault);
      Record(Campaigning(nodeID, poll.fault), row);
      AskedAcross(old(polls), p1, polls, nodeID);
      if r.Ok? {
        won := r.value;
        if won.Some? { HigherIsAboveAll(lease, polls.before, won.value); }
      } else {
        won := None;
      }
    }

    /** Polls until the lease is won or the context ends (the script ending is the context ending). A win carries a
        term above every term the row has carried at any moment before it, rivals' wins meanwhile and wins of its
        own whose reply was lost included. It asks once a round, store errors or not, and gives up only when the
        context has ended. */
    method Campaign(script: seq<Poll>) returns (won: Option<int>)
      requires Valid() && Me().phase.Seeking? && RivalsOf(nodeID, script)
      modifies this`peers, this`polls, store`clock, store`leader
      ensures Valid() && PollsOn(old(polls), polls) && store.clock >= old(store.clock)
      ensures store.leader.term >= old(store.leader).term
      ensures
        var k := |Asked(old(polls), polls, nodeID)|;
        && k <= |script| && Asked(old(polls), polls, nodeID) == Bids(nodeID, script, k)
        && (forall i | 0 <= i < k - 1 :: !script[i].endedAfter)
        && (if won.Some? then 0 < k && script[k - 1].fault.NoFault? else CampaignOver(script, k))
      ensures won.None? ==> Me() == old(Me())
      ensures won.Some? ==>
        && Me() == old(Me()).(phase := Elected(won.value), won := old(Me()).won + {won.value})
        && store.leader == LeaderRow(nodeID, won.value, store.clock + lease) && won.value > old(store.leader).term
        && polls.Voted? && polls.vote == Campaigning(nodeID, NoFault) && AboveAllOf(lease, polls.before, won.value)
    {
      for i := 0 to |script|
        invariant Valid() && PollsOn(old(polls), polls) && store.clock >= old(store.clock)
        invariant store.leader.term >= old(store.leader).term && Me() == old(Me())
        invariant Asked(old(polls), polls, nodeID) == Bids(nodeID, script, i) && |Bids(nodeID, script, i)| == i
        invariant forall j | 0 <= j < i :: !script[j].endedAfter
      {
        assert script[i] in script;
        ghost var p0 := polls;
        won := TryCampaign(script[i]);
        AskedAcross(old(polls), p0, polls, nodeID);
        if won.Some? || script[i].endedAfter { return; }
      }
      return None;
    }

    /** One round of holding on: whatever rivals do first, then a renewal. */
    method TryRenew(poll: Poll) returns (r: Reply<Option<int>>)
      requires Valid() && Me().phase.Reigning? && forall v <- poll.rivals :: ByRival(nodeID, v)
      modifies this`peers, this`polls, store`clock, store`leader
      ensures Valid() && PollsOn(old(polls), polls) && store.clock >= old(store.clock)
      ensures store.leader.term >= old(store.leader).term
      ensures Asked(old(polls), polls, nodeID) == [Renewing(nodeID, Seen(poll))]
      ensures r.Ok? <==> poll.fault.NoFault?
      ensures r.Ok? && r.value.Some? ==> r.value.value == Me().term
      ensures
        var refused := r.Ok? && r.value.None? && !poll.endedAfter;
        && (refused ==> !CanRenew(store.leader, nodeID, store.clock))
        && Me() == if refused then old(Me()).(phase := Deposed) else old(Me())
    {
      Interfere(poll.rivals);
      ghost var p1 := polls;
      ElectInvHolds(lease, polls);
      assert NodeInv(store.leader, nodeID, Me());
      var row := store.leader;
      r := store.RenewLeadership(nodeID, lease, poll.fault);
      Record(Renewing(nodeID, Seen(poll)), row);
      AskedAcross(old(polls), p1, polls, nodeID);
    }

    /** Renews until refused (true) or the context ends (false). Every renewal granted on the way returned this
        node's own term, and a refusal means it holds no live lease. It asks once a round, and a store error is
        survived: only a refusal or the end of the context ends the loop, and every answer that was neither is a
        renewal. */
    method Hold(script: seq<Poll>) returns (lost: bool, renewed: seq<int>)
      requires Valid() && Me().phase.Reigning? && RivalsOf(nodeID, script)
      modifies this`peers, this`polls, store`clock, store`leader
      ensures Valid() && PollsOn(old(polls), polls) && store.clock >= old(store.clock)
      ensures store.leader.term >= old(store.leader).term
      ensures store.leader.holder == nodeID <==> store.leader.term == Me().term
      ensures forall t <- renewed :: t == Me().term
      ensures Me() == if lost then old(Me()).(phase := Deposed) else old(Me())
      ensures lost ==> !CanRenew(store.leader, nodeID, store.clock)
      ensures
        var k := |Asked(old(polls), polls, nodeID)|;
        && k <= |script| && Asked(old(polls), polls, nodeID) == Renewals(nodeID, script, k)
        && (forall i | 0 <= i < k :: !script[i].endedBefore)
        && (forall i | 0 <= i < k - 1 :: !script[i].endedAfter)
        && (if lost then 0 < k && script[k - 1].fault.NoFault? && !script[k - 1].endedAfter else HoldOver(script, k))
        && |renewed| == Answered(script, if lost || (0 < k && script[k - 1].endedAfter) then k - 1 else k)
    {
      renewed := [];
      lost := false;
      for i := 0 to |script|
        invariant Valid() && PollsOn(old(polls), polls) && store.clock >= old(store.clock)
        invariant store.leader.term >= old(store.leader).term && Me() == old(Me()) && !lost
        invariant forall t <- renewed :: t == Me().term
        invariant Asked(old(polls), polls, nodeID) == Renewals(nodeID, script, i) && |Renewals(nodeID, script, i)| == i
        invariant forall j | 0 <= j < i :: !script[j].endedBefore && !script[j].endedAfter
        invariant |renewed| == Answered(script, i)
      {
        if script[i].endedBefore { break; }
        assert script[i] in script;
        ghost var p0 := polls;
        var r := TryRenew(script[i]);
        AskedAcross(old(polls), p0, polls, nodeID);
        if script[i].endedAfter { break; }
        if r.Ok? {
          if r.value.None? {
            lost := true;
            break;
          }
          renewed := renewed + [r.value.value];
        }
      }
      ElectInvHolds(lease, polls);
      assert NodeInv(store.leader, nodeID, Me());
    }

    method Resign(fault: Fault) returns (r: Reply<()>)
      requires Valid() && Me().phase.Leaving?
      modifies this`peers, this`polls, store`clock, store`leader
      ensures Valid() && PollsOn(old(polls), polls) && store.clock >= old(store.clock)
      ensures store.leader == if fault.Dropped? then old(store.leader) else Election.Resign(old(store.leader), nodeID)
      ensures r == (if fault.NoFault? then Ok(()) else StoreError) && Me() == old(Me()).(phase := Stopped)
      ensures polls.Voted? && polls.vote == Resigning(nodeID, fault)
    {
      var row := store.leader;
      r := store.ResignLeadership(nodeID, fault);
      Record(Resigning(nodeID, fault), row);
    }

    /** A change of this node's standing that touches no table. */
    method Announce(v: Vote)
      requires Valid() && (v.BecomeLead? || v.Demote? || v.Shutdown?) && v.n == nodeID
      requires CanVote(Elect(store.clock, store.leader, peers), v)
      modifies this`peers, this`polls
      ensures Valid() && PollsOn(old(polls), polls) && Asked(old(polls), polls, nodeID) == []
      ensures polls.Voted? && polls.vote == v
      ensures peers == AfterVote(lease, Elect(store.clock, store.leader, old(peers)), v).nodes
    {
      Record(v, store.leader);
    }
  }

  /** A cancellable context; once cancelled it stays so. */
  class Context {
    var live: bool

    constructor ()
      ensures live
    {
      live := true;
    }
  }

  /** The k-th reign's context is opened, or cancelled. */
  datatype Mark = Opens(k: nat) | Cancels(k: nat)

  /** Opened and cancelled strictly in turn: at every moment on record at most one context was live. */
  predicate InTurn(log: seq<Mark>) {
    forall j | 0 <= j < |log| :: log[j] == if j % 2 == 0 then Opens(j / 2 + 1) else Cancels(j / 2 + 1)
  }

  /** One trip round `Run`'s loop. */
  datatype Turn = Turn(ended: bool, campaign: seq<Poll>, hold: seq<Poll>)

  /** What the node asked of the store in one turn: campaigns, then renewals, each for as long as it had to. */
  predicate TurnTaken(n: NodeId, turn: Turn, won: bool, again: bool, asked: seq<Vote>, bids: nat, renewals: nat) {
    && bids <= |turn.campaign| && renewals <= |turn.hold|
    && asked == Bids(n, turn.campaign, bids) + Renewals(n, turn.hold, renewals)
    && if won then !turn.ended && (again || HoldOver(turn.hold, renewals))
       else renewals == 0 && if turn.ended then bids == 0 else CampaignOver(turn.campaign, bids)
  }

  /** The loop may end after `done` reigns, and not before: leading, because holding on was over; not leading, because
      the turns were over, or the next one found the context ended, at once or while campaigning. `asked` is
      what the node asked of the store in the turn it ended in. */
  predicate TurnsOver(n: NodeId, turns: seq<Turn>, done: nat, leading: bool, asked: seq<Vote>, bids: nat, renewals: nat) {
    && done <= |turns| && (forall i | 0 <= i < done :: !turns[i].ended)
    && if leading then
         && 0 < done && bids <= |turns[done - 1].campaign| && HoldOver(turns[done - 1].hold, renewals)
         && asked == Bids(n, turns[done - 1].campaign, bids) + Renewals(n, turns[done - 1].hold, renewals)
       else
         || done == |turns|
         || (turns[done].ended && asked == [])
         || (CampaignOver(turns[done].campaign, bids) && asked == Bids(n, turns[done].campaign, bids))
  }

  lemma LastTurn(n: NodeId, turns: seq<Turn>, done: nat, won: bool, asked: seq<Vote>, bids: nat, renewals: nat)
    requires done < |turns| && (forall i | 0 <= i < done :: !turns[i].ended)
    requires TurnTaken(n, turns[done], won, false, asked, bids, renewals)
    ensures TurnsOver(n, turns, if won then done + 1 else done, won, asked, bids, renewals)
  {}

  class Leadership {
    const elect: PostgresElection
    var isLead: bool
    var term: int
    var leadCtx: Context
    var cancel: Context?        // whose cancel function is kept, if any
    var stopped: bool
    var reapers: seq<Context>   // the context each reaper started so far is bound to
    ghost var reigns: seq<Context>  // every context this node ever made for a reign, the seed first
    ghost var log: seq<Mark>        // every opening and cancelling since, in order

    ghost predicate Shape()
      reads this
    {
      && reigns != [] && leadCtx == reigns[|reigns| - 1]
      && (forall i, j | 0 <= i < j < |reigns| :: reigns[i] != reigns[j])
      && (cancel != null ==> cancel == leadCtx)
      && (isLead ==> cancel != null)
    }

    /** Only the newest reign can be live, it is live whenever this node believes it leads, and whoever
        ends a live reign has the means to cancel it. It was never otherwise: contexts were opened and
        cancelled strictly in turn. */
    ghost predicate OneReign()
      requires Shape()
      reads this, reigns
    {
      && (forall i | 0 <= i < |reigns| - 1 :: !reigns[i].live)
      && (isLead ==> leadCtx.live)
      && (leadCtx.live <==> cancel != null)
      && InTurn(log) && |log| == 2 * (|reigns| - 1) - (if leadCtx.live then 1 else 0)
    }

    /** What this node believes is what the election's history says it does. */
    ghost predicate Linked()
      reads this, elect`peers, elect`polls, elect.store`clock, elect.store`leader
    {
      elect.Valid() && isLead == elect.Me().isLead && (isLead ==> term == elect.Me().term)
    }

    constructor (elect: PostgresElection)
      ensures Shape() && OneReign() && fresh(leadCtx)
      ensures this.elect == elect && !isLead && term == 0 && !leadCtx.live && !stopped && reigns == [leadCtx]
      ensures reapers == [] && log == []
    {
      var ctx := new Context();
      ctx.live := false;
      this.elect, isLead, term, leadCtx, cancel, stopped := elect, false, 0, ctx, null, false;
      reigns, reapers, log := [ctx], [], [];
    }

    /** Opens a reign. It does not look at the previous one, so the caller must have ended that first:
        the one-reign invariant survives exactly when it did. */
    method BecomeLead(t: int)
      requires Shape() && OneReign()
      modifies this
      ensures Shape() && fresh(leadCtx) && leadCtx.live && isLead && term == t
      ensures reigns == old(reigns) + [leadCtx] && stopped == old(stopped) && reapers == old(reapers)
      ensures log == old(log) + [Opens(|old(reigns)|)]
      ensures OneReign() <==> !old(leadCtx).live
    {
      var ctx := new Context();
      term, leadCtx, cancel := t, ctx, ctx;
      isLead := true;
      log := log + [Opens(|reigns|)];
      reigns := reigns + [ctx];
      assert forall i | 0 <= i < |reigns| - 2 :: !reigns[i].live;
      assert reigns[|reigns| - 2] == old(leadCtx);
    }

    /** Ends the reign, if there is one. The term is kept. */
    method Demote()
      requires Shape() && OneReign()
      modifies this, leadCtx
      ensures Shape() && OneReign() && !isLead && !leadCtx.live
      ensures leadCtx == old(leadCtx) && term == old(term) && reigns == old(reigns) && stopped == old(stopped)
      ensures reapers == old(reapers)
      ensures log == old(log) + if old(leadCtx.live) then [Cancels(|reigns| - 1)] else []
    {
      var c := cancel;
      cancel := null;
      isLead := false;
      if c != null {
        c.live := false;
        log := log + [Cancels(|reigns| - 1)];
      }
    }

    /** Hands over on the way out. The row is touched only if this node still believed it led. */
    method Resign(fault: Fault)
      requires Shape() && OneReign() && Linked() && (elect.Me().phase.Seeking? || elect.Me().phase.Reigning?)
      modifies this, leadCtx, elect`peers, elect`polls, elect.store`clock, elect.store`leader
      ensures Shape() && OneReign() && Linked() && !isLead && !leadCtx.live && reigns == old(reigns)
      ensures leadCtx == old(leadCtx) && stopped == old(stopped) && reapers == old(reapers)
      ensures PollsOn(old(elect.polls), elect.polls) && elect.Me().phase.Stopped? && elect.Me().won == old(elect.Me()).won
      ensures elect.store.leader == if old(isLead) && !fault.Dropped?
        then Election.Resign(old(elect.store.leader), elect.nodeID) else old(elect.store.leader)
      ensures elect.polls.Voted?
      ensures elect.polls.vote == if old(isLead) then Resigning(elect.nodeID, fault) else Shutdown(elect.nodeID)
    {
      var wasLeading := isLead;
      ElectInvHolds(elect.lease, elect.polls);
      assert NodeInv(elect.store.leader, elect.nodeID, elect.Me());
      elect.Announce(Shutdown(elect.nodeID));
      ghost var p1 := elect.polls;
      Demote();
      if wasLeading {
        var _ := elect.Resign(fault);
        PollsOnAcross(old(elect.polls), p1, elect.polls);
      }
    }

    /** Told it won, the node opens a reign and starts its reaper. */
    method OpenReign(t: int)
      requires Shape() && OneReign() && Linked() && elect.Me().phase == Elected(t) && !leadCtx.live
      requires reapers == reigns[1..]
      modifies this, elect`peers, elect`polls
      ensures Shape() && OneReign() && Linked() && fresh(leadCtx) && leadCtx.live && stopped == old(stopped)
      ensures reigns == old(reigns) + [leadCtx] && reapers == reigns[1..] == old(reapers) + [leadCtx]
      ensures PollsOn(old(elect.polls), elect.polls)
      ensures elect.Me() == old(elect.Me()).(phase := Reigning, isLead := true, term := t)
      ensures Asked(old(elect.polls), elect.polls, elect.nodeID) == []
    {
      BecomeLead(t);
      elect.Announce(Vote.BecomeLead(elect.nodeID));
      reapers := reapers + [leadCtx];
    }

    /** Holds the reign until the context ends, or until it is told it lost and is demoted. */
    method HoldReign(script: seq<Poll>) returns (lost: bool)
      requires Shape() && OneReign() && Linked() && elect.Me().phase.Reigning? && RivalsOf(elect.nodeID, script)
      modifies this, leadCtx, elect`peers, elect`polls, elect.store`clock, elect.store`leader
      ensures Shape() && OneReign() && Linked() && stopped == old(stopped)
      ensures reigns == old(reigns) && reapers == old(reapers) && leadCtx == old(leadCtx)
      ensures PollsOn(old(elect.polls), elect.polls) && elect.store.leader.term >= old(elect.store.leader).term
      ensures elect.Me().won == old(elect.Me()).won
      ensures if lost then elect.Me().phase.Seeking? && !leadCtx.live else elect.Me().phase.Reigning?
      ensures isLead <==> !lost
      ensures lost ==> !CanRenew(elect.store.leader, elect.nodeID, elect.store.clock)
      ensures
        var asked := Asked(old(elect.polls), elect.polls, elect.nodeID);
        && |asked| <= |script| && asked == Renewals(elect.nodeID, script, |asked|)
        && (!lost ==> HoldOver(script, |asked|))
    {
      ElectInvHolds(elect.lease, elect.polls);
      assert NodeInv(elect.store.leader, elect.nodeID, elect.Me());
      var refused, _ := elect.Hold(script);
      lost := refused;
      if lost {
        ghost var p1 := elect.polls;
        Demote();
        elect.Announce(Vote.Demote(elect.nodeID));
        AskedAcross(old(elect.polls), p1, elect.polls, elect.nodeID);
      }
    }

    /** A whole reign, from the win on. */
    method Reign(t: int, script: seq<Poll>) returns (lost: bool)
      requires Shape() && OneReign() && Linked() && elect.Me().phase == Elected(t) && !leadCtx.live
      requires reapers == reigns[1..] && RivalsOf(elect.nodeID, script)
      modifies this, elect`peers, elect`polls, elect.store`clock, elect.store`leader
      ensures Shape() && OneReign() && Linked() && stopped == old(stopped)
      ensures reigns == old(reigns) + [leadCtx] && fresh(leadCtx) && reapers == reigns[1..]
      ensures PollsOn(old(elect.polls), elect.polls) && elect.store.leader.term >= old(elect.store.leader).term
      ensures elect.Me().won == old(elect.Me()).won && (isLead <==> !lost)
      ensures if lost then elect.Me().phase.Seeking? && !leadCtx.live else elect.Me().phase.Reigning?
      ensures lost ==> !CanRenew(elect.store.leader, elect.nodeID, elect.store.clock)
      ensures
        var asked := Asked(old(elect.polls), elect.polls, elect.nodeID);
        && |asked| <= |script| && asked == Renewals(elect.nodeID, script, |asked|)
        && (!lost ==> HoldOver(script, |asked|))
    {
      OpenReign(t);
      ghost var p1 := elect.polls;
      lost := HoldReign(script);
      AskedAcross(old(elect.polls), p1, elect.polls, elect.nodeID);
    }

    /** One trip round the loop: win, open a reign, hold it. Without a win nothing changes on this node; told it
        lost, the node is demoted before it goes round again. */
    method RunOnce(turn: Turn) returns (won: Option<int>, again: bool, ghost bids: nat, ghost renewals: nat)
      requires Shape() && OneReign() && Linked() && elect.Me().phase.Seeking? && !leadCtx.live
      requires reapers == reigns[1..] && RivalsOf(elect.nodeID, turn.campaign) && RivalsOf(elect.nodeID, turn.hold)
      modifies this, leadCtx, elect`peers, elect`polls, elect.store`clock, elect.store`leader
      ensures Shape() && OneReign() && Linked() && stopped == old(stopped)
      ensures PollsOn(old(elect.polls), elect.polls) && reapers == reigns[1..]
      ensures won.None? ==> !again && reigns == old(reigns) && leadCtx == old(leadCtx)
                            && elect.Me() == old(elect.Me())
      ensures won.Some? ==>
        && reigns == old(reigns) + [leadCtx] && fresh(leadCtx)
        && old(elect.store.leader).term < won.value <= elect.store.leader.term
        && elect.Me().won == old(elect.Me()).won + {won.value}
        && (if again then elect.Me().phase.Seeking? && !leadCtx.live else elect.Me().phase.Reigning?)
      ensures again ==> won.Some? && !CanRenew(elect.store.leader, elect.nodeID, elect.store.clock)
      ensures elect.store.leader.term >= old(elect.store.leader).term
      ensures isLead <==> won.Some? && !again
      ensures TurnTaken(elect.nodeID, turn, won.Some?, again, Asked(old(elect.polls), elect.polls, elect.nodeID), bids, renewals)
    {
      bids, renewals := 0, 0;
      if turn.ended { return None, false, 0, 0; }
      won := elect.Campaign(turn.campaign);
      bids := |Asked(old(elect.polls), elect.polls, elect.nodeID)|;
      if won.None? { return None, false, bids, 0; }
      ghost var p1 := elect.polls;
      again := Reign(won.value, turn.hold);
      renewals := |Asked(p1, elect.polls, elect.nodeID)|;
      AskedAcross(old(elect.polls), p1, elect.polls, elect.nodeID);
    }

    /** The loop, until the context ends; `last` is where its last turn began. */
    method RunTurns(turns: seq<Turn>)
      returns (terms: seq<int>, ghost last: Polls, ghost bids: nat, ghost renewals: nat)
      requires Shape() && OneReign() && Linked() && elect.Me().phase.Seeking? && !leadCtx.live
      requires reapers == reigns[1..]
      requires forall t <- turns :: RivalsOf(elect.nodeID, t.campaign) && RivalsOf(elect.nodeID, t.hold)
      modifies this, leadCtx, elect`peers, elect`polls, elect.store`clock, elect.store`leader
      ensures Shape() && OneReign() && Linked() && stopped == old(stopped) && reapers == reigns[1..]
      ensures elect.Me().phase.Seeking? || elect.Me().phase.Reigning?
      ensures leadCtx == old(leadCtx) || fresh(leadCtx)
      ensures PollsOn(old(elect.polls), elect.polls)
      ensures old(reigns) <= reigns && |reigns| == |old(reigns)| + |terms|
      ensures Ascending(terms, old(elect.store.leader).term, elect.store.leader.term)
      ensures elect.Me().won == old(elect.Me()).won + Set(terms)
      ensures PollsOn(old(elect.polls), last) && PollsOn(last, elect.polls)
      ensures TurnsOver(elect.nodeID, turns, |terms|, isLead, Asked(last, elect.polls, elect.nodeID), bids, renewals)
    {
      terms, last, bids, renewals := [], elect.polls, 0, 0;
      var i, again := 0, true;
      while i < |turns| && again
        invariant 0 <= i <= |turns|
        invariant Shape() && OneReign() && Linked() && stopped == old(stopped) && reapers == reigns[1..]
        invariant elect.Me().phase.Seeking? || elect.Me().phase.Reigning?
        invariant again ==> elect.Me().phase.Seeking? && !leadCtx.live
        invariant leadCtx == old(leadCtx) || fresh(leadCtx)
        invariant PollsOn(old(elect.polls), elect.polls)
        invariant old(reigns) <= reigns && |reigns| == |old(reigns)| + |terms|
        invariant Ascending(terms, old(elect.store.leader).term, elect.store.leader.term)
        invariant elect.Me().won == old(elect.Me()).won + Set(terms)
        invariant PollsOn(old(elect.polls), last) && PollsOn(last, elect.polls)
        invariant again ==> |terms| == i && !isLead && forall j | 0 <= j < i :: !turns[j].ended
        invariant !again ==>
          TurnsOver(elect.nodeID, turns, |terms|, isLead, Asked(last, elect.polls, elect.nodeID), bids, renewals)
      {
        assert turns[i] in turns;
        last := elect.polls;
        ghost var was := elect.store.leader.term;
        var won;
        won, again, bids, renewals := RunOnce(turns[i]);
        PollsOnAcross(old(elect.polls), last, elect.polls);
        if !again { LastTurn(elect.nodeID, turns, i, won.Some?, Asked(last, elect.polls, elect.nodeID), bids, renewals); }
        if won.Some? {
          OneMoreTerm(terms, won.value, old(elect.store.leader).term, was, elect.store.leader.term);
          terms := terms + [won.value];
        }
        i := i + 1;
      }
    }

    /** The whole of Run, to its return, as a stretch of the election's history. Each reign won has a term above the
        one before, a context of its own, opened only after every earlier one was cancelled, and one reaper, bound
        to it; when Run returns none is live, and a node that left while leading no longer holds the row unless
        its resignation never arrived. Run returns only once the context has ended; `last` is where its last turn
        began and `left` where the loop ended. */
    method Run(turns: seq<Turn>, resignFault: Fault)
      returns (terms: seq<int>, wasLeading: bool, ghost last: Polls, ghost left: Polls, ghost bids: nat, ghost renewals: nat)
      requires Shape() && OneReign() && Linked() && elect.Me().phase.Seeking? && !leadCtx.live
      requires reapers == reigns[1..]
      requires forall t <- turns :: RivalsOf(elect.nodeID, t.campaign) && RivalsOf(elect.nodeID, t.hold)
      modifies this, leadCtx, elect`peers, elect`polls, elect.store`clock, elect.store`leader
      ensures Shape() && OneReign() && Linked() && !isLead && stopped
      ensures elect.Valid() && PollsOn(old(elect.polls), elect.polls) && elect.Me().phase.Stopped?
      ensures forall c <- reigns :: !c.live
      ensures InTurn(log) && reapers == reigns[1..]
      ensures old(reigns) <= reigns && |reigns| == |old(reigns)| + |terms|
      ensures Ascending(terms, old(elect.store.leader).term, elect.store.leader.term)
      ensures elect.Me().won == old(elect.Me()).won + Set(terms)
      ensures wasLeading && !resignFault.Dropped? ==> elect.store.leader.holder != elect.nodeID
      ensures PollsOn(old(elect.polls), last) && PollsOn(last, left) && PollsOn(left, elect.polls)
      ensures TurnsOver(elect.nodeID, turns, |terms|, wasLeading, Asked(last, left, elect.nodeID), bids, renewals)
      ensures elect.polls.Voted?
      ensures elect.polls.vote == if wasLeading then Resigning(elect.nodeID, resignFault) else Shutdown(elect.nodeID)
    {
      terms, last, bids, renewals := RunTurns(turns);
      wasLeading := isLead;
      left := elect.polls;
      Resign(resignFault);
      PollsOnAcross(old(elect.polls), left, elect.polls);
      stopped := true;
    }
  }

  function Set(ts: seq<int>): set<int> { set t | t in ts }

  lemma OneMoreTerm(ts: seq<int>, t: int, lo: int, mid: int, hi: int)
    requires Ascending(ts, lo, mid) && mid < t <= hi
    ensures Set(ts + [t]) == Set(ts) + {t} && Ascending(ts + [t], lo, hi)
  {}

  /** Strictly increasing, above `lo` and at most `hi`. */
  predicate Ascending(ts: seq<int>, lo: int, hi: int) {
    && lo <= hi
    && (forall k | 0 <= k < |ts| :: lo < ts[k] <= hi)
    && (forall i, j | 0 <= i < j < |ts| :: ts[i] < ts[j])
  }
}
