/** When a round can still be committed (internal/consensus/consensus.go): exactly as long as the nodes that have
    voted for it or still may make a majority. */
module ConsensusProgress {
  import opened Common
  import opened Consensus
  import opened ConsensusRuns
  import Paths

  ghost function AnyStep(): (Cluster, Event, Cluster) -> bool {
    (c, ev, d) => Enabled(c, ev) && Next(c, ev) == d
  }

  ghost predicate Reaches(c: Cluster, d: Cluster) {
    Paths.Reaches(AnyStep(), c, d)
  }

  lemma StepsOn(c: Cluster, ev: Event, d: Cluster)
    requires Enabled(c, ev) && Reaches(Next(c, ev), d)
    ensures Reaches(c, d)
  {
    assert AnyStep()(c, ev, Next(c, ev));
    Paths.OneStep(AnyStep(), c, ev, Next(c, ev));
    Paths.ReachesTrans(AnyStep(), c, Next(c, ev), d);
  }

  // ---- who can still be counted ------------------------------------------------------------------------

  /** Peers whose PROPOSE is on its way, and peers whose vote is. */
  function Asked(c: Cluster, r: int): set<int>
    requires r in c.attempts
  {
    var a := c.attempts[r];
    set n | n in a.peers && ProposeMsg(r, a.proposer, n, a.payload) in c.msgs
  }

  function Voting(c: Cluster, r: int): set<int>
    requires r in c.attempts
  {
    var a := c.attempts[r];
    set n | n in a.peers && VoteMsg(r, n, a.proposer) in c.msgs
  }

  /** The proposer, the peers that have been counted and those that still may be. */
  function Possible(c: Cluster, r: int): set<int>
    requires r in c.attempts
  {
    var a := c.attempts[r];
    {a.proposer} + a.counted + a.unsent + Asked(c, r) + Voting(c, r)
  }

  ghost predicate SameRound(a: Attempt, b: Attempt) {
    b.proposer == a.proposer && b.peers == a.peers && b.payload == a.payload
  }

  lemma SameRoundKept(c: Cluster, ev: Event, r: int)
    requires Enabled(c, ev) && r in c.attempts
    ensures r in Next(c, ev).attempts && SameRound(c.attempts[r], Next(c, ev).attempts[r])
  {
  }

  /** A node that is counted or unsent after a step was so before, or votes in it. */
  lemma CountedBefore(c: Cluster, ev: Event, r: int, n: int)
    requires Enabled(c, ev) && r in c.attempts && r in Next(c, ev).attempts
    ensures var a, b := c.attempts[r], Next(c, ev).attempts[r];
            && (n in b.unsent ==> n in a.unsent)
            && (n in b.counted ==>
                  n in a.counted || n == a.proposer || (ev.GetVote? && ev.round == r && ev.from == n))
  {
  }

  /** A PROPOSE is sent to a peer that has not got one, a vote by one that has. */
  lemma SentBefore(c: Cluster, ev: Event, r: int, n: int)
    requires Inv(c) && Enabled(c, ev) && r in c.attempts
    ensures var a := c.attempts[r];
            && (ProposeMsg(r, a.proposer, n, a.payload) in Produced(c, ev) ==> n in a.unsent)
            && (VoteMsg(r, n, a.proposer) in Produced(c, ev) ==> n in Asked(c, r))
  {
    if ev.GetPropose? {
      assert MsgOk(c, ProposeMsg(ev.round, ev.from, ev.to, ev.payload));
    }
  }

  /** Whoever may be counted after a step already might before. */
  lemma PossibleNode(c: Cluster, ev: Event, r: int, n: int)
    requires Inv(c) && Enabled(c, ev) && r in c.attempts
    requires r in Next(c, ev).attempts && n in Possible(Next(c, ev), r)
    ensures n in Possible(c, r)
  {
    var a := c.attempts[r];
    SameRoundKept(c, ev, r);
    CountedBefore(c, ev, r, n);
    SentBefore(c, ev, r, n);
    MessageFate(c, ev, ProposeMsg(r, a.proposer, n, a.payload));
    MessageFate(c, ev, VoteMsg(r, n, a.proposer));
    if ev.GetVote? {
      assert MsgOk(c, VoteMsg(ev.round, ev.from, ev.to));
    }
  }

  /** The nodes that may be counted never get more. */
  lemma PossibleShrinks(c: Cluster, ev: Event, r: int)
    requires Inv(c) && Enabled(c, ev) && r in c.attempts
    ensures r in Next(c, ev).attempts && Possible(Next(c, ev), r) <= Possible(c, r)
  {
    SameRoundKept(c, ev, r);
    forall n | n in Possible(Next(c, ev), r) ensures n in Possible(c, r) {
      PossibleNode(c, ev, r, n);
    }
  }

  ghost predicate Bounded(c: Cluster, r: int, size: nat, nodes: set<int>) {
    Inv(c) && c.nodes == nodes && r in c.attempts && |Possible(c, r)| <= size
  }

  lemma BoundedStays(c: Cluster, d: Cluster, r: int)
    requires Inv(c) && r in c.attempts && Reaches(c, d)
    ensures Bounded(d, r, |Possible(c, r)|, c.nodes)
  {
    var size, nodes := |Possible(c, r)|, c.nodes;
    var inv := x => Bounded(x, r, size, nodes);
    forall x, ev, y | inv(x) && AnyStep()(x, ev, y) ensures inv(y) {
      StepKeeps(x, ev);
      PossibleShrinks(x, ev, r);
      SubsetSize(Possible(y, r), Possible(x, r));
    }
    Paths.Kept(AnyStep(), inv, c, d);
  }

  lemma CommittedIsPossible(c: Cluster, r: int)
    requires Inv(c) && At(c, r, Committed)
    ensures |Possible(c, r)| >= |c.nodes| / 2 + 1
  {
    assert AttemptOk(c, r);
    SubsetSize(c.attempts[r].counted, Possible(c, r));
  }

  // ---- how it gets there -------------------------------------------------------------------------------

  /** What is still to be done before everybody who may be counted has been. */
  function Work(c: Cluster, r: int): nat
    requires r in c.attempts
  {
    3 * |c.attempts[r].unsent| + 2 * |Asked(c, r)| + |Voting(c, r)|
  }

  lemma Taken(s: set<int>, n: int)
    requires n in s
    ensures |s - {n}| == |s| - 1
  {
  }

  lemma SendsMessages(c: Cluster, r: int, n: int)
    requires Inv(c) && At(c, r, Opened) && n in c.attempts[r].unsent
    ensures var ev := SendPropose(r, n, true);
            var a, d := c.attempts[r], Next(c, ev);
            && (forall x :: ProposeMsg(r, a.proposer, x, a.payload) in d.msgs
                  <==> x == n || ProposeMsg(r, a.proposer, x, a.payload) in c.msgs)
            && (forall x :: VoteMsg(r, x, a.proposer) in d.msgs <==> VoteMsg(r, x, a.proposer) in c.msgs)
  {
    var ev := SendPropose(r, n, true);
    var a := c.attempts[r];
    forall x {
      MessageFate(c, ev, ProposeMsg(r, a.proposer, x, a.payload));
    }
    forall x {
      MessageFate(c, ev, VoteMsg(r, x, a.proposer));
    }
  }

  lemma SendsSets(c: Cluster, r: int, n: int)
    requires Inv(c) && At(c, r, Opened) && n in c.attempts[r].unsent
    ensures var d := Next(c, SendPropose(r, n, true));
            && At(d, r, Opened) && d.attempts[r] == c.attempts[r].(unsent := c.attempts[r].unsent - {n})
            && Asked(d, r) == Asked(c, r) + {n} && Voting(d, r) == Voting(c, r)
  {
    SendsMessages(c, r, n);
    assert AttemptOk(c, r);
  }

  lemma SendsOne(c: Cluster, r: int, n: int)
    requires Inv(c) && At(c, r, Opened) && n in c.attempts[r].unsent
    ensures var d := Next(c, SendPropose(r, n, true));
            && Inv(d) && At(d, r, Opened) && Possible(d, r) == Possible(c, r) && Work(d, r) < Work(c, r)
  {
    var d := Next(c, SendPropose(r, n, true));
    StepKeeps(c, SendPropose(r, n, true));
    SendsSets(c, r, n);
    Taken(c.attempts[r].unsent, n);
    assert |Asked(c, r) + {n}| <= |Asked(c, r)| + 1;
  }

  lemma AnswersOne(c: Cluster, r: int, n: int)
    requires Inv(c) && r in c.attempts && n in Asked(c, r)
    ensures var a := c.attempts[r];
            var ev := GetPropose(r, a.proposer, n, a.payload, true);
            && Enabled(c, ev)
            && var d := Next(c, ev);
               && Inv(d) && At(d, r, a.stage) && Possible(d, r) == Possible(c, r) && Work(d, r) < Work(c, r)
               && d.attempts[r].unsent == a.unsent
  {
    var a := c.attempts[r];
    var m := ProposeMsg(r, a.proposer, n, a.payload);
    var ev := GetPropose(r, a.proposer, n, a.payload, true);
    var d := Next(c, ev);
    StepKeeps(c, ev);
    assert MsgOk(c, m);
    forall x ensures ProposeMsg(r, a.proposer, x, a.payload) in d.msgs
                     <==> x != n && ProposeMsg(r, a.proposer, x, a.payload) in c.msgs
              ensures VoteMsg(r, x, a.proposer) in d.msgs <==> x == n || VoteMsg(r, x, a.proposer) in c.msgs {
      MessageFate(c, ev, ProposeMsg(r, a.proposer, x, a.payload));
      MessageFate(c, ev, VoteMsg(r, x, a.proposer));
    }
    assert Asked(d, r) == Asked(c, r) - {n} && Voting(d, r) == Voting(c, r) + {n};
    Taken(Asked(c, r), n);
  }

  lemma CountsOne(c: Cluster, r: int, n: int)
    requires Inv(c) && r in c.attempts && IsOpen(c.attempts[r]) && n in Voting(c, r)
    ensures var a := c.attempts[r];
            var ev := GetVote(r, n, a.proposer);
            && Enabled(c, ev)
            && var d := Next(c, ev);
               && Inv(d) && At(d, r, a.stage) && Possible(d, r) == Possible(c, r) && Work(d, r) < Work(c, r)
               && d.attempts[r].unsent == a.unsent && d.nodes == c.nodes
  {
    var a := c.attempts[r];
    var ev := GetVote(r, n, a.proposer);
    var d := Next(c, ev);
    StepKeeps(c, ev);
    assert MsgOk(c, VoteMsg(r, n, a.proposer));
    forall x ensures ProposeMsg(r, a.proposer, x, a.payload) in d.msgs
                     <==> ProposeMsg(r, a.proposer, x, a.payload) in c.msgs
              ensures VoteMsg(r, x, a.proposer) in d.msgs <==> x != n && VoteMsg(r, x, a.proposer) in c.msgs {
      MessageFate(c, ev, ProposeMsg(r, a.proposer, x, a.payload));
      MessageFate(c, ev, VoteMsg(r, x, a.proposer));
    }
    assert Asked(d, r) == Asked(c, r) && Voting(d, r) == Voting(c, r) - {n};
    Taken(Voting(c, r), n);
  }

  /** With nothing left to wait for, everybody who can be counted has been, except for the proposer itself. */
  lemma AllCounted(c: Cluster, r: int)
    requires Inv(c) && r in c.attempts && IsOpen(c.attempts[r]) && Work(c, r) == 0
    ensures var a := c.attempts[r];
            && a.unsent == {} && a.tally.needed == |c.nodes| / 2 + 1
            && a.tally.yes == |Possible(c, r)| - (if a.stage == Opened then 1 else 0)
            && (a.stage == Waiting ==> (a.tally.done <==> a.tally.yes >= a.tally.needed))
  {
    var a := c.attempts[r];
    assert AttemptOk(c, r);
    assert Possible(c, r) == {a.proposer} + a.counted;
    if a.stage == Opened {
      assert |{a.proposer} + a.counted| == 1 + |a.counted|;
    } else {
      assert {a.proposer} + a.counted == a.counted;
    }
  }

  /** A proposer that has decided can commit, to any of its peers. */
  lemma DecidedCommits(c: Cluster, r: int, targets: set<int>) returns (d: Cluster)
    requires At(c, r, Deciding) && targets <= c.attempts[r].peers
    ensures Reaches(c, d) && At(d, r, Committed)
    ensures forall n :: n in targets ==> CommitMsg(r, n, c.attempts[r].payload) in d.msgs
  {
    d := Next(c, DoCommit(r, targets));
    Paths.ReachesSelf(AnyStep(), d);
    StepsOn(c, DoCommit(r, targets), d);
    forall n | n in targets ensures CommitMsg(r, n, c.attempts[r].payload) in d.msgs {
      assert CommitMsg(r, n, c.attempts[r].payload) in Produced(c, DoCommit(r, targets));
    }
  }

  lemma VoteDecides(c: Cluster, r: int)
    requires Enabled(c, VoteSelf(r)) && c.attempts[r].tally.yes + 1 >= c.attempts[r].tally.needed
    ensures At(Next(c, VoteSelf(r)), r, Deciding)
  {
  }

  /** The proposer then votes, takes its result and commits. */
  lemma CommitsNow(c: Cluster, r: int) returns (d: Cluster)
    requires Inv(c) && r in c.attempts && IsOpen(c.attempts[r]) && Work(c, r) == 0
    requires |Possible(c, r)| >= |c.nodes| / 2 + 1
    ensures Reaches(c, d) && At(d, r, Committed)
  {
    AllCounted(c, r);
    if c.attempts[r].stage == Opened {
      VoteDecides(c, r);
      d := DecidedCommits(Next(c, VoteSelf(r)), r, {});
      StepsOn(c, VoteSelf(r), d);
    } else if c.attempts[r].stage == Waiting {
      d := DecidedCommits(Next(c, TakeResult(r)), r, {});
      StepsOn(c, TakeResult(r), d);
    } else {
      d := DecidedCommits(c, r, {});
    }
  }

  lemma {:induction false} CommitsSometime(c: Cluster, r: int) returns (d: Cluster)
    requires Inv(c) && r in c.attempts && IsOpen(c.attempts[r]) && |Possible(c, r)| >= |c.nodes| / 2 + 1
    ensures Reaches(c, d) && At(d, r, Committed)
    decreases Work(c, r)
  {
    var a := c.attempts[r];
    assert AttemptOk(c, r);
    if a.unsent != {} {
      var n := Member(a.unsent);
      SendsOne(c, r, n);
      d := CommitsSometime(Next(c, SendPropose(r, n, true)), r);
      StepsOn(c, SendPropose(r, n, true), d);
    } else if Asked(c, r) != {} {
      var n := Member(Asked(c, r));
      AnswersOne(c, r, n);
      var ev := GetPropose(r, a.proposer, n, a.payload, true);
      d := CommitsSometime(Next(c, ev), r);
      StepsOn(c, ev, d);
    } else if Voting(c, r) != {} {
      var n := Member(Voting(c, r));
      CountsOne(c, r, n);
      d := CommitsSometime(Next(c, GetVote(r, n, a.proposer)), r);
      StepsOn(c, GetVote(r, n, a.proposer), d);
    } else {
      d := CommitsNow(c, r);
    }
  }

  /** At every moment of every run an open round can still be committed if and only if a majority of all nodes
      has been counted, is the proposer, has yet to be asked, or has its PROPOSE or its vote on the way; and it
      can be given up whenever its proposer waits. */
  lemma CommitPossibleIff(start: Cluster, evs: seq<Event>, r: int)
    requires Init(start) && Legal(start, evs) && r in Run(start, evs).attempts && IsOpen(Run(start, evs).attempts[r])
    ensures var c := Run(start, evs);
            && ((exists d :: Reaches(c, d) && At(d, r, Committed)) <==> |Possible(c, r)| >= |c.nodes| / 2 + 1)
            && (At(c, r, Waiting) ==> Enabled(c, GiveUp(r)) && At(Next(c, GiveUp(r)), r, Abandoned))
  {
    InvAlways(start, evs);
    var c := Run(start, evs);
    if |Possible(c, r)| >= |c.nodes| / 2 + 1 {
      var d := CommitsSometime(c, r);
    }
    forall d | Reaches(c, d) && At(d, r, Committed) ensures |Possible(c, r)| >= |c.nodes| / 2 + 1 {
      BoundedStays(c, d, r);
      CommittedIsPossible(d, r);
    }
  }

  /** Any node can propose anything to any peers at any time under a fresh ID, and a COMMIT that is on its way
      can be applied by its receiver. */
  lemma RoundsCanOpen(c: Cluster, r: int, p: int, peers: set<int>, payload: Payload)
    requires r !in c.attempts && p in c.nodes && peers <= c.nodes - {p}
    ensures Enabled(c, Open(r, p, peers, payload)) && At(Next(c, Open(r, p, peers, payload)), r, Opened)
    ensures forall n :: CommitMsg(r, n, payload) in c.msgs ==>
              Enabled(c, GetCommit(r, n, payload))
              && Application(r, n, payload) in Next(c, GetCommit(r, n, payload)).applied
  {
    forall n | CommitMsg(r, n, payload) in c.msgs
      ensures Application(r, n, payload) in Next(c, GetCommit(r, n, payload)).applied
    {
      assert Next(c, GetCommit(r, n, payload)).applied[|c.applied|] == Application(r, n, payload);
    }
  }
}
