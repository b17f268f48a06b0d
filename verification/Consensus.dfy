/** Majority voting on one operation at a time (internal/consensus/consensus.go).

    A round is one attempt of a proposal: a retry opens another round under a fresh ID.  A round counts
    votes without asking who sent them; that the count is nevertheless a number of nodes rests on one
    PROPOSE per peer and one vote per PROPOSE, which is what the cluster below establishes. */
module Consensus {
  import opened Common

  datatype Payload = Payload(operation: string, data: string)

  /** What a proposer keeps of a round; `done` says whether its result channel is full. */
  datatype Tally = Tally(needed: nat, yes: nat, no: nat, done: bool)

  function Needed(total: nat): nat {
    total / 2 + 1
  }

  /** A vote is counted; once there are enough the channel gets a result, unless it already has one. */
  function Vote(t: Tally, yes: bool): Tally {
    var u := if yes then t.(yes := t.yes + 1) else t.(no := t.no + 1);
    if u.yes >= u.needed then u.(done := true) else u
  }

  // ---- the engine object -----------------------------------------------------------------------

  class Engine {
    const total: nat                     // all configured nodes, alive or not
    var rounds: map<int, Tally>

    constructor (total: nat)
      ensures this.total == total && rounds == map[]
    {
      this.total, rounds := total, map[];
    }

    method OpenRound(round: int)
      modifies this
      ensures rounds == old(rounds)[round := Tally(Needed(total), 0, 0, false)]
    {
      var needed := total / 2 + 1;
      if needed < 1 {
        needed := 1;
      }
      rounds := rounds[round := Tally(needed, 0, 0, false)];
    }

    /** The proposer's own vote does not go through the channel: it is told at once. */
    method VoteForSelf(round: int) returns (committed: bool)
      requires round in rounds
      modifies this
      ensures rounds == old(rounds)[round := old(rounds)[round].(yes := old(rounds)[round].yes + 1)]
      ensures committed == (rounds[round].yes >= rounds[round].needed)
    {
      var r := rounds[round];
      r := r.(yes := r.yes + 1);
      rounds := rounds[round := r];
      committed := r.yes >= r.needed;
    }

    method HandleVote(round: int, yes: bool)
      modifies this
      ensures rounds ==
                if round in old(rounds) then old(rounds)[round := Vote(old(rounds)[round], yes)] else old(rounds)
    {
      if round !in rounds {
        return;
      }
      var r := rounds[round];
      if yes {
        r := r.(yes := r.yes + 1);
      } else {
        r := r.(no := r.no + 1);
      }
      if r.yes >= r.needed && !r.done {
        r := r.(done := true);
      }
      rounds := rounds[round := r];
    }

    /** Whatever way an attempt ends, its round is forgotten. */
    method CloseRound(round: int)
      modifies this
      ensures rounds == old(rounds) - {round}
    {
      rounds := rounds - {round};
    }
  }

  // ---- the cluster -----------------------------------------------------------------------------

  datatype Stage =
    | Opened        // registered; PROPOSEs go out one by one, votes may already come back
    | Waiting       // has voted for itself and waits for the channel
    | Deciding      // on its way into doCommit
    | Committed     // has broadcast COMMIT; the round is closed
    | Abandoned     // timed out or cancelled; the round is closed

  datatype Attempt = Attempt(
    proposer: int,
    peers: set<int>,                     // the alive peers at the start of the attempt
    unsent: set<int>,                    // those that PROPOSE has not been sent to yet
    payload: Payload,
    tally: Tally,
    stage: Stage,
    voters: set<int>,                    // everybody who has voted yes
    counted: set<int>)                   // those whose vote has been counted

  datatype Msg =
    | ProposeMsg(round: int, from: int, to: int, payload: Payload)
    | VoteMsg(round: int, from: int, to: int)
    | CommitMsg(round: int, to: int, payload: Payload)

  /** One node's handler has run on one committed round. */
  datatype Application = Application(round: int, node: int, payload: Payload)

  datatype Cluster = Cluster(nodes: set<int>, attempts: map<int, Attempt>, msgs: multiset<Msg>,
                             applied: seq<Application>)

  datatype Event =
    | Open(round: int, proposer: int, peers: set<int>, payload: Payload)
    | SendPropose(round: int, to: int, sent: bool)
    | VoteSelf(round: int)
    | TakeResult(round: int)
    | GiveUp(round: int)
    | DoCommit(round: int, targets: set<int>)
    | GetPropose(round: int, from: int, to: int, payload: Payload, answered: bool)
    | GetVote(round: int, from: int, to: int)
    | GetCommit(round: int, to: int, payload: Payload)

  predicate At(c: Cluster, r: int, stage: Stage) {
    r in c.attempts && c.attempts[r].stage == stage
  }

  predicate Enabled(c: Cluster, ev: Event) {
    match ev
    case Open(r, p, peers, _) => r !in c.attempts && p in c.nodes && peers <= c.nodes - {p}
    case SendPropose(r, to, _) => At(c, r, Opened) && to in c.attempts[r].unsent
    case VoteSelf(r) => At(c, r, Opened) && c.attempts[r].unsent == {}
    case TakeResult(r) => At(c, r, Waiting) && c.attempts[r].tally.done
    case GiveUp(r) => At(c, r, Waiting)
    case DoCommit(r, targets) => At(c, r, Deciding) && targets <= c.attempts[r].peers
    case GetPropose(r, from, to, payload, _) => ProposeMsg(r, from, to, payload) in c.msgs
    case GetVote(r, from, to) => VoteMsg(r, from, to) in c.msgs
    case GetCommit(r, to, payload) => CommitMsg(r, to, payload) in c.msgs
  }

  /** The proposer still has the round in its map. */
  predicate IsOpen(a: Attempt) {
    a.stage == Opened || a.stage == Waiting || a.stage == Deciding
  }

  /** The tally after the proposer's own vote. */
  function OwnVote(t: Tally): Tally {
    t.(yes := t.yes + 1)
  }

  /** What an event makes of its own round. */
  function Progress(a: Attempt, ev: Event): Attempt {
    match ev
    case SendPropose(_, to, _) => a.(unsent := a.unsent - {to})
    case VoteSelf(_) =>
      var t := OwnVote(a.tally);
      a.(tally := t, stage := if t.yes >= t.needed then Deciding else Waiting,
         voters := a.voters + {a.proposer}, counted := a.counted + {a.proposer})
    case TakeResult(_) => a.(tally := a.tally.(done := false), stage := Deciding)
    case GiveUp(_) => a.(stage := Abandoned)
    case DoCommit(_, _) => a.(stage := Committed)
    case GetPropose(_, _, to, _, answered) => if answered then a.(voters := a.voters + {to}) else a
    case GetVote(_, from, _) => if IsOpen(a) then a.(tally := Vote(a.tally, true), counted := a.counted + {from}) else a
    case _ => a
  }

  function Produced(c: Cluster, ev: Event): multiset<Msg>
    requires Enabled(c, ev)
  {
    match ev
    case SendPropose(r, to, sent) =>
      var a := c.attempts[r];
      if sent then multiset{ProposeMsg(r, a.proposer, to, a.payload)} else multiset{}
    case DoCommit(r, targets) => multiset(set n | n in targets :: CommitMsg(r, n, c.attempts[r].payload))
    case GetPropose(r, from, to, _, answered) => if answered then multiset{VoteMsg(r, to, from)} else multiset{}
    case _ => multiset{}
  }

  function Consumed(ev: Event): multiset<Msg> {
    match ev
    case GetPropose(r, from, to, payload, _) => multiset{ProposeMsg(r, from, to, payload)}
    case GetVote(r, from, to) => multiset{VoteMsg(r, from, to)}
    case GetCommit(r, to, payload) => multiset{CommitMsg(r, to, payload)}
    case _ => multiset{}
  }

  function NextAttempts(c: Cluster, ev: Event): map<int, Attempt>
    requires Enabled(c, ev)
  {
    if ev.Open? then
      c.attempts[ev.round := Attempt(ev.proposer, ev.peers, ev.peers, ev.payload,
                                     Tally(Needed(|c.nodes|), 0, 0, false), Opened, {}, {})]
    else if ev.round in c.attempts then c.attempts[ev.round := Progress(c.attempts[ev.round], ev)]
    else c.attempts
  }

  function NextApplied(c: Cluster, ev: Event): seq<Application>
    requires Enabled(c, ev)
  {
    match ev
    case DoCommit(r, _) => c.applied + [Application(r, c.attempts[r].proposer, c.attempts[r].payload)]
    case GetCommit(r, to, payload) => c.applied + [Application(r, to, payload)]
    case _ => c.applied
  }

  function Next(c: Cluster, ev: Event): Cluster
    requires Enabled(c, ev)
  {
    Cluster(c.nodes, NextAttempts(c, ev), c.msgs - Consumed(ev) + Produced(c, ev), NextApplied(c, ev))
  }

  predicate Legal(c: Cluster, evs: seq<Event>)
    decreases |evs|
  {
    evs == [] || (Enabled(c, evs[0]) && Legal(Next(c, evs[0]), evs[1..]))
  }

  function Run(c: Cluster, evs: seq<Event>): Cluster
    requires Legal(c, evs)
    decreases |evs|
  {
    if evs == [] then c else Run(Next(c, evs[0]), evs[1..])
  }

  ghost predicate Init(c: Cluster) {
    c.attempts == map[] && c.msgs == multiset{} && c.applied == []
  }

  /** The round map of one node's engine. */
  function RoundsOf(c: Cluster, p: int): map<int, Tally> {
    map r | r in c.attempts && c.attempts[r].proposer == p && IsOpen(c.attempts[r]) :: c.attempts[r].tally
  }

  // ---- the invariant ---------------------------------------------------------------------------

  /** Every counted vote is one node's; a waiting proposer has been woken exactly when there are enough. */
  ghost predicate TallyOk(n: nat, a: Attempt) {
    && a.tally.needed == Needed(n)
    && a.tally.yes == |a.counted|
    && a.counted <= a.voters
    && (a.stage == Opened ==> a.proposer !in a.counted)
    && (a.stage != Opened ==> a.proposer in a.counted && a.unsent == {})
    && (a.stage == Opened || a.stage == Waiting ==> (a.tally.done <==> a.tally.yes >= a.tally.needed))
    && (a.tally.done ==> a.tally.yes >= a.tally.needed)
    && (a.stage == Deciding || a.stage == Committed ==> a.tally.yes >= a.tally.needed)
  }

  ghost predicate PeersOk(nodes: set<int>, a: Attempt) {
    && a.proposer in nodes && a.peers <= nodes - {a.proposer} && a.unsent <= a.peers
    && a.counted <= a.peers - a.unsent + {a.proposer}
    && a.voters <= nodes
  }

  ghost predicate AttemptOk(c: Cluster, r: int)
    requires r in c.attempts
  {
    TallyOk(|c.nodes|, c.attempts[r]) && PeersOk(c.nodes, c.attempts[r])
  }

  /** How far its round must have come for a message to be about. */
  ghost predicate Standing(a: Attempt, m: Msg) {
    match m
    case ProposeMsg(_, from, to, payload) =>
      payload == a.payload && from == a.proposer && to in a.peers && to !in a.unsent && to !in a.counted
    case VoteMsg(_, from, to) =>
      to == a.proposer && from in a.peers && from !in a.unsent && from !in a.counted && from in a.voters
    case CommitMsg(_, to, payload) => payload == a.payload && to in a.peers && a.stage == Committed
  }

  /** A peer has PROPOSE, or has its vote under way, or has been counted: one of these at a time, once. */
  ghost predicate MsgOk(c: Cluster, m: Msg)
    requires m in c.msgs
  {
    && m.round in c.attempts && Standing(c.attempts[m.round], m)
    && c.msgs[m] == 1
    && (m.ProposeMsg? ==> VoteMsg(m.round, m.to, m.from) !in c.msgs)
    && (m.CommitMsg? ==> Application(m.round, m.to, m.payload) !in c.applied)
  }

  ghost predicate AppliedOk(c: Cluster, i: nat)
    requires i < |c.applied|
  {
    var x := c.applied[i];
    x.round in c.attempts && c.attempts[x.round].stage == Committed && x.payload == c.attempts[x.round].payload
  }

  ghost predicate Inv(c: Cluster) {
    && (forall r {:trigger AttemptOk(c, r)} :: r in c.attempts ==> AttemptOk(c, r))
    && (forall m {:trigger MsgOk(c, m)} :: m in c.msgs ==> MsgOk(c, m))
    && (forall i: nat {:trigger AppliedOk(c, i)} :: i < |c.applied| ==> AppliedOk(c, i))
    && Distinct(c.applied)
  }

  // ---- every step keeps it ---------------------------------------------------------------------

  lemma ProgressOk(c: Cluster, ev: Event)
    requires Inv(c) && Enabled(c, ev) && !ev.Open? && ev.round in c.attempts
    ensures TallyOk(|c.nodes|, Progress(c.attempts[ev.round], ev))
    ensures PeersOk(c.nodes, Progress(c.attempts[ev.round], ev))
  {
    assert AttemptOk(c, ev.round);
    match ev {
      case GetPropose(r, from, to, payload, _) => assert MsgOk(c, ProposeMsg(r, from, to, payload));
      case GetVote(r, from, to) => assert MsgOk(c, VoteMsg(r, from, to));
      case _ =>
    }
  }

  lemma AttemptsKept(c: Cluster, ev: Event)
    requires Inv(c) && Enabled(c, ev)
    ensures forall r {:trigger AttemptOk(Next(c, ev), r)} :: r in Next(c, ev).attempts ==> AttemptOk(Next(c, ev), r)
  {
    var d := Next(c, ev);
    if !ev.Open? && ev.round in c.attempts {
      ProgressOk(c, ev);
    }
    forall r | r in d.attempts ensures AttemptOk(d, r) {
      assert r in c.attempts ==> AttemptOk(c, r);
    }
  }

  lemma StandingKept(c: Cluster, ev: Event, m: Msg)
    requires Inv(c) && Enabled(c, ev)
    requires m in c.msgs - Consumed(ev)
    ensures m.round in NextAttempts(c, ev) && Standing(NextAttempts(c, ev)[m.round], m)
  {
    assert MsgOk(c, m) && AttemptOk(c, m.round);
    if ev.GetVote? && ev.round == m.round {
      var v := VoteMsg(ev.round, ev.from, ev.to);
      assert MsgOk(c, v);
      assert m.ProposeMsg? ==> m.to != ev.from;
    }
  }

  lemma CountKept(c: Cluster, ev: Event, m: Msg)
    requires Enabled(c, ev) && m in c.msgs - Consumed(ev) && c.msgs[m] == 1 && m !in Produced(c, ev)
    ensures Next(c, ev).msgs[m] == 1
  {
    var rest := c.msgs - Consumed(ev);
    assert rest[m] == 1;
  }

  /** What survives a step keeps its standing. */
  lemma OldMessageKept(c: Cluster, ev: Event, m: Msg)
    requires Inv(c) && Enabled(c, ev)
    requires m in c.msgs - Consumed(ev) && m !in Produced(c, ev)
    ensures m in Next(c, ev).msgs && MsgOk(Next(c, ev), m)
  {
    assert MsgOk(c, m);
    StandingKept(c, ev, m);
    CountKept(c, ev, m);
    if m.ProposeMsg? {
      NoVoteYet(c, ev, m);
    } else if m.CommitMsg? {
      NotAppliedYet(c, ev, m);
    }
  }

  lemma NoVoteYet(c: Cluster, ev: Event, m: Msg)
    requires Inv(c) && Enabled(c, ev) && m.ProposeMsg? && m in c.msgs - Consumed(ev)
    ensures VoteMsg(m.round, m.to, m.from) !in Next(c, ev).msgs
  {
    assert MsgOk(c, m);
    if ev.GetPropose? {
      var p := ProposeMsg(ev.round, ev.from, ev.to, ev.payload);
      assert MsgOk(c, p);
      assert m.round == ev.round ==> m.to != ev.to;
    }
    assert VoteMsg(m.round, m.to, m.from) !in Produced(c, ev);
  }

  lemma NotAppliedYet(c: Cluster, ev: Event, m: Msg)
    requires Inv(c) && Enabled(c, ev) && m.CommitMsg? && m in c.msgs - Consumed(ev)
    ensures Application(m.round, m.to, m.payload) !in NextApplied(c, ev)
  {
    assert MsgOk(c, m) && AttemptOk(c, m.round);
    if ev.GetCommit? {
      assert MsgOk(c, CommitMsg(ev.round, ev.to, ev.payload));
    }
  }

  lemma NewProposeOk(c: Cluster, ev: Event, m: Msg)
    requires Inv(c) && Enabled(c, ev) && ev.SendPropose?
    requires m in Produced(c, ev)
    ensures MsgOk(Next(c, ev), m)
  {
    var a := c.attempts[ev.round];
    var v := VoteMsg(ev.round, ev.to, a.proposer);
    assert AttemptOk(c, ev.round);
    assert m in c.msgs ==> MsgOk(c, m);
    assert v in c.msgs ==> MsgOk(c, v);
    assert ev.to !in a.counted;
  }

  lemma NewVoteOk(c: Cluster, ev: Event, m: Msg)
    requires Inv(c) && Enabled(c, ev) && ev.GetPropose?
    requires m in Produced(c, ev)
    ensures MsgOk(Next(c, ev), m)
  {
    assert MsgOk(c, ProposeMsg(ev.round, ev.from, ev.to, ev.payload));
  }

  lemma NewCommitOk(c: Cluster, ev: Event, m: Msg)
    requires Inv(c) && Enabled(c, ev) && ev.DoCommit?
    requires m in Produced(c, ev)
    ensures MsgOk(Next(c, ev), m)
  {
    var d := Next(c, ev);
    assert AttemptOk(c, ev.round);
    assert m in c.msgs ==> MsgOk(c, m);
    forall i: nat | i < |c.applied| ensures c.applied[i].round != ev.round {
      assert AppliedOk(c, i);
    }
  }

  lemma AppliedKept(c: Cluster, ev: Event)
    requires Inv(c) && Enabled(c, ev)
    ensures forall i: nat {:trigger AppliedOk(Next(c, ev), i)} ::
      i < |Next(c, ev).applied| ==> AppliedOk(Next(c, ev), i)
    ensures Distinct(Next(c, ev).applied)
  {
    var d := Next(c, ev);
    if ev.GetCommit? {
      assert MsgOk(c, CommitMsg(ev.round, ev.to, ev.payload));
    }
    forall i: nat | i < |d.applied| ensures AppliedOk(d, i) {
      assert i < |c.applied| ==> AppliedOk(c, i);
    }
    NewApplication(c, ev);
  }

  /** No node has applied a round before its COMMIT is made, nor twice. */
  lemma NewApplication(c: Cluster, ev: Event)
    requires Inv(c) && Enabled(c, ev)
    ensures Distinct(NextApplied(c, ev))
  {
    if ev.DoCommit? {
      forall i: nat | i < |c.applied| ensures c.applied[i].round != ev.round {
        assert AppliedOk(c, i);
      }
    } else if ev.GetCommit? {
      assert MsgOk(c, CommitMsg(ev.round, ev.to, ev.payload));
    }
  }

  lemma StepKeeps(c: Cluster, ev: Event)
    requires Inv(c) && Enabled(c, ev)
    ensures Inv(Next(c, ev))
  {
    var d := Next(c, ev);
    AttemptsKept(c, ev);
    AppliedKept(c, ev);
    forall m | m in d.msgs ensures MsgOk(d, m) {
      if m in Produced(c, ev) {
        match ev {
          case SendPropose(_, _, _) => NewProposeOk(c, ev, m);
          case GetPropose(_, _, _, _, _) => NewVoteOk(c, ev, m);
          case DoCommit(_, _) => NewCommitOk(c, ev, m);
        }
      } else {
        OldMessageKept(c, ev, m);
      }
    }
  }

  lemma {:induction false} InvAlways(c: Cluster, evs: seq<Event>)
    requires Inv(c) && Legal(c, evs)
    ensures Inv(Run(c, evs)) && Run(c, evs).nodes == c.nodes
    decreases |evs|
  {
    if evs == [] {
    } else {
      StepKeeps(c, evs[0]);
      InvAlways(Next(c, evs[0]), evs[1..]);
    }
  }

  // ---- what follows for every run --------------------------------------------------------------

  /** A round that has gone into COMMIT has the yes votes of a majority of all nodes, proposer included. */
  lemma Quorum(c: Cluster, evs: seq<Event>, r: int)
    requires Init(c) && Legal(c, evs) && At(Run(c, evs), r, Committed)
    ensures var a := Run(c, evs).attempts[r];
            a.voters <= c.nodes && a.proposer in a.voters && |a.voters| >= |c.nodes| / 2 + 1
  {
    InvAlways(c, evs);
    var d := Run(c, evs);
    assert AttemptOk(d, r);
    SubsetSize(d.attempts[r].counted, d.attempts[r].voters);
  }

  /** Any two rounds that commit, in whatever order and from whatever proposers, share a voter. */
  lemma QuorumsIntersect(c: Cluster, evs: seq<Event>, r: int, s: int)
    requires Init(c) && Legal(c, evs) && At(Run(c, evs), r, Committed) && At(Run(c, evs), s, Committed)
    ensures exists n :: n in Run(c, evs).attempts[r].voters && n in Run(c, evs).attempts[s].voters
  {
    Quorum(c, evs, r);
    Quorum(c, evs, s);
    var d := Run(c, evs);
    var a, b := d.attempts[r].voters, d.attempts[s].voters;
    var n := Pigeonhole(a, b, c.nodes);
    assert n in d.attempts[r].voters && n in d.attempts[s].voters;
  }

  /** No wake-up is lost between the proposer's own vote and its peers': a waiting proposer has a result
      to take exactly when it has enough votes, and a result is only ever there with enough votes. */
  lemma NoLostQuorum(c: Cluster, evs: seq<Event>, r: int)
    requires Init(c) && Legal(c, evs) && r in Run(c, evs).attempts
    ensures var d := Run(c, evs);
            && (At(d, r, Waiting) ==> (Enabled(d, TakeResult(r)) <==> d.attempts[r].tally.yes >= |c.nodes| / 2 + 1))
            && (d.attempts[r].tally.done ==> d.attempts[r].tally.yes >= |c.nodes| / 2 + 1)
  {
    InvAlways(c, evs);
    assert AttemptOk(Run(c, evs), r);
  }

  /** No node's handler runs twice for one round, and what it runs on is what was proposed; it runs for
      committed rounds only. */
  lemma AppliedOnceAsProposed(c: Cluster, evs: seq<Event>, i: nat, j: nat)
    requires Init(c) && Legal(c, evs) && i < |Run(c, evs).applied| && j < |Run(c, evs).applied|
    ensures var d := Run(c, evs);
            && At(d, d.applied[i].round, Committed)
            && d.applied[i].payload == d.attempts[d.applied[i].round].payload
            && (d.applied[i].round == d.applied[j].round && d.applied[i].node == d.applied[j].node ==> i == j)
  {
    InvAlways(c, evs);
    var d := Run(c, evs);
    assert AppliedOk(d, i) && AppliedOk(d, j);
  }

  lemma EndedStep(c: Cluster, ev: Event, r: int)
    requires Enabled(c, ev) && r in c.attempts && !IsOpen(c.attempts[r])
    ensures r in NextAttempts(c, ev)
    ensures NextAttempts(c, ev)[r] == c.attempts[r].(voters := NextAttempts(c, ev)[r].voters)
  {
  }

  /** An attempt that has ended never changes again but for nodes that still vote on it: its votes are
      dropped, and no vote of one round is ever counted in another. */
  lemma {:induction false} EndedAttemptsStay(c: Cluster, evs: seq<Event>, r: int)
    requires Inv(c) && Legal(c, evs) && r in c.attempts && !IsOpen(c.attempts[r])
    ensures r in Run(c, evs).attempts
    ensures var a := c.attempts[r]; Run(c, evs).attempts[r] == a.(voters := Run(c, evs).attempts[r].voters)
    decreases |evs|
  {
    if evs == [] {
    } else {
      StepKeeps(c, evs[0]);
      EndedStep(c, evs[0], r);
      EndedAttemptsStay(Next(c, evs[0]), evs[1..], r);
    }
  }

  // ---- the node's own map does what the engine object does --------------------------------------

  lemma OpenRefines(c: Cluster, ev: Event)
    requires Inv(c) && Enabled(c, ev) && ev.Open?
    ensures RoundsOf(Next(c, ev), ev.proposer)
            == RoundsOf(c, ev.proposer)[ev.round := Tally(Needed(|c.nodes|), 0, 0, false)]
  {
    assert ev.round !in c.attempts;
  }

  lemma VoteSelfRefines(c: Cluster, ev: Event)
    requires Inv(c) && Enabled(c, ev) && ev.VoteSelf?
    ensures var p := c.attempts[ev.round].proposer;
            var before := RoundsOf(c, p);
            ev.round in before && RoundsOf(Next(c, ev), p) == before[ev.round := OwnVote(before[ev.round])]
  {
    var p := c.attempts[ev.round].proposer;
    var before, after := RoundsOf(c, p), RoundsOf(Next(c, ev), p);
    assert after == before[ev.round := OwnVote(before[ev.round])];
  }

  /** The proposer that goes on empties its channel and leaves the counts as they are. */
  lemma TakeResultRefines(c: Cluster, ev: Event)
    requires Inv(c) && Enabled(c, ev) && ev.TakeResult?
    ensures var p := c.attempts[ev.round].proposer;
            var before := RoundsOf(c, p);
            && ev.round in before && before[ev.round].done
            && RoundsOf(Next(c, ev), p) == before[ev.round := before[ev.round].(done := false)]
  {
    var p := c.attempts[ev.round].proposer;
    var before, after := RoundsOf(c, p), RoundsOf(Next(c, ev), p);
    assert after == before[ev.round := before[ev.round].(done := false)];
  }

  /** A vote is counted in the map of the node it was sent to if the round is still there, else dropped. */
  lemma HandleVoteRefines(c: Cluster, ev: Event)
    requires Inv(c) && Enabled(c, ev) && ev.GetVote?
    ensures var before := RoundsOf(c, ev.to);
            RoundsOf(Next(c, ev), ev.to)
            == if ev.round in before then before[ev.round := Vote(before[ev.round], true)] else before
  {
    assert MsgOk(c, VoteMsg(ev.round, ev.from, ev.to));
    var before, after := RoundsOf(c, ev.to), RoundsOf(Next(c, ev), ev.to);
    if ev.round in before {
      assert after == before[ev.round := Vote(before[ev.round], true)];
    } else {
      assert after == before;
    }
  }

  lemma CloseRefines(c: Cluster, ev: Event)
    requires Inv(c) && Enabled(c, ev) && (ev.DoCommit? || ev.GiveUp?)
    ensures var p := c.attempts[ev.round].proposer;
            RoundsOf(Next(c, ev), p) == RoundsOf(c, p) - {ev.round}
  {
    var p := c.attempts[ev.round].proposer;
    assert RoundsOf(Next(c, ev), p) == RoundsOf(c, p) - {ev.round};
  }
}
