/** What the messages, votes and commits of a round are, in terms of what has happened in the run
    (internal/consensus/consensus.go): nothing is made up on the way and nothing gets lost but by the network. */
module ConsensusRuns {
  import opened Common
  import opened Consensus

  /** The commit of the round has gone out to node n. */
  ghost predicate Told(past: seq<Event>, r: int, n: int) {
    exists targets {:trigger DoCommit(r, targets)} :: DoCommit(r, targets) in past && n in targets
  }

  ghost predicate Decided(past: seq<Event>, r: int) {
    exists targets {:trigger DoCommit(r, targets)} :: DoCommit(r, targets) in past
  }

  /** The round is the one that was proposed; it is committed exactly when its proposer has decided that, and
      its proposer has then applied what was proposed. */
  ghost predicate RoundOk(c: Cluster, r: int, past: seq<Event>)
    requires r in c.attempts
  {
    var a := c.attempts[r];
    && Open(r, a.proposer, a.peers, a.payload) in past
    && (a.proposer in a.voters <==> VoteSelf(r) in past)
    && (a.stage == Committed <==> Decided(past, r))
    && (a.stage == Committed <==> Application(r, a.proposer, a.payload) in c.applied)
  }

  /** A peer that PROPOSE was sent to has answered it or has it still coming, and no other. */
  ghost predicate AskedOk(c: Cluster, r: int, n: int, past: seq<Event>)
    requires r in c.attempts
  {
    var a := c.attempts[r];
    && (n in a.peers && n !in a.unsent <==> SendPropose(r, n, true) in past || SendPropose(r, n, false) in past)
    && (SendPropose(r, n, true) in past <==>
          || ProposeMsg(r, a.proposer, n, a.payload) in c.msgs
          || GetPropose(r, a.proposer, n, a.payload, true) in past
          || GetPropose(r, a.proposer, n, a.payload, false) in past)
  }

  /** A peer has voted exactly when it has answered with a vote; the vote is on its way until the proposer gets
      it, and counts if the round is still open then. */
  ghost predicate VoteOk(c: Cluster, r: int, n: int, past: seq<Event>)
    requires r in c.attempts
  {
    var a := c.attempts[r];
    n != a.proposer ==>
      && (n in a.voters <==> GetPropose(r, a.proposer, n, a.payload, true) in past)
      && (n in a.voters ==> VoteMsg(r, n, a.proposer) in c.msgs || GetVote(r, n, a.proposer) in past)
      && (n in a.counted ==> GetVote(r, n, a.proposer) in past)
      && (IsOpen(a) && GetVote(r, n, a.proposer) in past ==> n in a.counted)
  }

  /** A peer that the COMMIT has gone out to has applied it or has it still coming, and no other has. */
  ghost predicate ToldOk(c: Cluster, r: int, n: int, past: seq<Event>)
    requires r in c.attempts
  {
    var a := c.attempts[r];
    n != a.proposer ==>
      && (Told(past, r, n) <==> CommitMsg(r, n, a.payload) in c.msgs || Application(r, n, a.payload) in c.applied)
      && (Application(r, n, a.payload) in c.applied <==> GetCommit(r, n, a.payload) in past)
  }

  ghost predicate NodeOk(c: Cluster, r: int, n: int, past: seq<Event>)
    requires r in c.attempts
  {
    AskedOk(c, r, n, past) && VoteOk(c, r, n, past) && ToldOk(c, r, n, past)
  }

  ghost predicate Unheard(past: seq<Event>, r: int) {
    forall ev :: ev in past ==> ev.round != r
  }

  ghost predicate Witnessed(c: Cluster, past: seq<Event>) {
    && (forall r {:trigger Unheard(past, r)} :: r !in c.attempts ==> Unheard(past, r))
    && (forall r {:trigger RoundOk(c, r, past)} :: r in c.attempts ==> RoundOk(c, r, past))
    && (forall r, n {:trigger NodeOk(c, r, n, past)} :: r in c.attempts ==> NodeOk(c, r, n, past))
  }

  // ---- one step --------------------------------------------------------------------------------------

  lemma OneMore(past: seq<Event>, ev: Event)
    ensures forall e :: e in past + [ev] <==> e in past || e == ev
  {
  }

  lemma ToldMore(past: seq<Event>, ev: Event, r: int, n: int)
    ensures Told(past + [ev], r, n) <==> Told(past, r, n) || (ev.DoCommit? && ev.round == r && n in ev.targets)
    ensures Decided(past + [ev], r) <==> Decided(past, r) || (ev.DoCommit? && ev.round == r)
  {
    OneMore(past, ev);
    forall targets
      ensures DoCommit(r, targets) in past + [ev] <==> DoCommit(r, targets) in past || DoCommit(r, targets) == ev
    {
    }
    if ev.DoCommit? && ev.round == r {
      assert DoCommit(r, ev.targets) in past + [ev];
    }
  }

  /** What becomes of one message in a step: it is there afterwards if it is sent, or was and is not taken. */
  lemma MessageFate(c: Cluster, ev: Event, m: Msg)
    requires Inv(c) && Enabled(c, ev)
    ensures m in Next(c, ev).msgs <==> m in Produced(c, ev) || (m in c.msgs && m !in Consumed(ev))
  {
    if m in Consumed(ev) {
      assert MsgOk(c, m) && c.msgs[m] == 1 && Consumed(ev)[m] == 1;
    }
  }

  lemma KnownRound(c: Cluster, ev: Event)
    requires Inv(c) && Enabled(c, ev) && !ev.Open?
    ensures ev.round in c.attempts && AttemptOk(c, ev.round)
  {
    match ev
    case GetPropose(r, from, to, payload, _) => assert MsgOk(c, ProposeMsg(r, from, to, payload));
    case GetVote(r, from, to) => assert MsgOk(c, VoteMsg(r, from, to));
    case GetCommit(r, to, payload) => assert MsgOk(c, CommitMsg(r, to, payload));
    case _ =>
  }

  /** A step leaves rounds that it is not about alone. */
  lemma OtherRound(c: Cluster, ev: Event, r: int)
    requires Inv(c) && Enabled(c, ev) && r != ev.round && r in c.attempts
    ensures var d := Next(c, ev);
            && r in d.attempts && d.attempts[r] == c.attempts[r]
            && (forall m: Msg :: m.round == r ==> (m in d.msgs <==> m in c.msgs))
            && (forall x: Application :: x.round == r ==> (x in d.applied <==> x in c.applied))
  {
    forall m: Msg | m.round == r ensures m in Next(c, ev).msgs <==> m in c.msgs {
      MessageFate(c, ev, m);
    }
  }

  lemma SameRoundOk(c: Cluster, d: Cluster, ev: Event, r: int, n: int, past: seq<Event>)
    requires r != ev.round && r in c.attempts && r in d.attempts && d.attempts[r] == c.attempts[r]
    requires forall m: Msg :: m.round == r ==> (m in d.msgs <==> m in c.msgs)
    requires forall x: Application :: x.round == r ==> (x in d.applied <==> x in c.applied)
    requires RoundOk(c, r, past) && NodeOk(c, r, n, past)
    ensures RoundOk(d, r, past + [ev]) && NodeOk(d, r, n, past + [ev])
  {
    OneMore(past, ev);
    ToldMore(past, ev, r, n);
  }

  lemma OtherRoundOk(c: Cluster, ev: Event, r: int, n: int, past: seq<Event>)
    requires Inv(c) && Enabled(c, ev) && r != ev.round && r in c.attempts
    requires RoundOk(c, r, past) && NodeOk(c, r, n, past)
    ensures r in Next(c, ev).attempts && RoundOk(Next(c, ev), r, past + [ev]) && NodeOk(Next(c, ev), r, n, past + [ev])
  {
    OtherRound(c, ev, r);
    SameRoundOk(c, Next(c, ev), ev, r, n, past);
  }

  lemma NeverApplied(c: Cluster, r: int, n: int, payload: Payload)
    requires Inv(c) && (r !in c.attempts || c.attempts[r].stage != Committed)
    ensures Application(r, n, payload) !in c.applied && CommitMsg(r, n, payload) !in c.msgs
  {
    forall i: nat | i < |c.applied| ensures c.applied[i] != Application(r, n, payload) {
      assert AppliedOk(c, i);
    }
    forall m | m in c.msgs ensures m != CommitMsg(r, n, payload) {
      assert MsgOk(c, m);
    }
  }

  lemma NewRoundOk(c: Cluster, ev: Event, n: int, past: seq<Event>)
    requires Inv(c) && Enabled(c, ev) && ev.Open? && Unheard(past, ev.round)
    ensures var d, r := Next(c, ev), ev.round;
            r in d.attempts && RoundOk(d, r, past + [ev]) && NodeOk(d, r, n, past + [ev])
  {
    OneMore(past, ev);
    ToldMore(past, ev, ev.round, n);
    NeverApplied(c, ev.round, ev.proposer, ev.payload);
    NeverApplied(c, ev.round, n, ev.payload);
    MessageFate(c, ev, CommitMsg(ev.round, n, ev.payload));
    MessageFate(c, ev, ProposeMsg(ev.round, ev.proposer, n, ev.payload));
    forall m | m in c.msgs ensures m.round != ev.round {
      assert MsgOk(c, m);
    }
  }

  /** What an event makes of its own round, as far as node n goes. */
  ghost predicate AttemptSteps(a: Attempt, b: Attempt, ev: Event, n: int) {
    && b.proposer == a.proposer && b.peers == a.peers && b.payload == a.payload
    && (n in b.unsent <==> n in a.unsent && !(ev.SendPropose? && ev.to == n))
    && (n in b.voters <==> || n in a.voters || (ev.VoteSelf? && n == a.proposer)
                           || (ev.GetPropose? && ev.to == n && ev.answered))
    && (n in b.counted <==> || n in a.counted || (ev.VoteSelf? && n == a.proposer)
                            || (ev.GetVote? && ev.from == n && IsOpen(a)))
    && (b.stage == Committed <==> a.stage == Committed || ev.DoCommit?)
    && (IsOpen(b) ==> IsOpen(a))
  }

  lemma OwnAttempt(c: Cluster, ev: Event, n: int)
    requires Enabled(c, ev) && !ev.Open? && ev.round in c.attempts
    ensures ev.round in Next(c, ev).attempts
    ensures AttemptSteps(c.attempts[ev.round], Next(c, ev).attempts[ev.round], ev, n)
  {
  }

  /** What it makes of the messages between the proposer and node n, and of the node's application. */
  ghost predicate MessagesStep(c: Cluster, d: Cluster, ev: Event, n: int)
    requires ev.round in c.attempts
  {
    var r, a := ev.round, c.attempts[ev.round];
    && (ProposeMsg(r, a.proposer, n, a.payload) in d.msgs <==>
          || (ev.SendPropose? && ev.to == n && ev.sent)
          || (ProposeMsg(r, a.proposer, n, a.payload) in c.msgs && !(ev.GetPropose? && ev.to == n)))
    && (VoteMsg(r, n, a.proposer) in d.msgs <==>
          || (ev.GetPropose? && ev.to == n && ev.answered)
          || (VoteMsg(r, n, a.proposer) in c.msgs && !(ev.GetVote? && ev.from == n)))
    && (CommitMsg(r, n, a.payload) in d.msgs <==>
          || (ev.DoCommit? && n in ev.targets)
          || (CommitMsg(r, n, a.payload) in c.msgs && !(ev.GetCommit? && ev.to == n)))
    && (Application(r, n, a.payload) in d.applied <==>
          || Application(r, n, a.payload) in c.applied
          || (ev.GetCommit? && ev.to == n) || (ev.DoCommit? && n == a.proposer))
  }

  /** A message that is delivered is about its round: it has the round's proposer and payload. */
  ghost predicate Addressed(c: Cluster, ev: Event)
    requires ev.round in c.attempts
  {
    var a := c.attempts[ev.round];
    && (ev.GetPropose? ==>
          && ev.from == a.proposer && ev.payload == a.payload && ev.to != a.proposer
          && ProposeMsg(ev.round, a.proposer, ev.to, a.payload) in c.msgs)
    && (ev.GetVote? ==> ev.to == a.proposer && ev.from != a.proposer)
    && (ev.GetCommit? ==>
          && ev.payload == a.payload && ev.to != a.proposer && a.stage == Committed
          && CommitMsg(ev.round, ev.to, a.payload) in c.msgs)
    && (ev.SendPropose? ==> ev.to in a.unsent && ev.to in a.peers)
  }

  lemma EventIsAddressed(c: Cluster, ev: Event)
    requires Inv(c) && Enabled(c, ev) && !ev.Open? && ev.round in c.attempts
    ensures Addressed(c, ev)
  {
    assert AttemptOk(c, ev.round);
    match ev
    case GetPropose(r, from, to, payload, _) => assert MsgOk(c, ProposeMsg(r, from, to, payload));
    case GetVote(r, from, to) => assert MsgOk(c, VoteMsg(r, from, to));
    case GetCommit(r, to, payload) => assert MsgOk(c, CommitMsg(r, to, payload));
    case _ =>
  }

  lemma ProposeFate(c: Cluster, ev: Event, n: int)
    requires Inv(c) && Enabled(c, ev) && !ev.Open? && ev.round in c.attempts && Addressed(c, ev)
    ensures var r, a := ev.round, c.attempts[ev.round];
            ProposeMsg(r, a.proposer, n, a.payload) in Next(c, ev).msgs <==>
              || (ev.SendPropose? && ev.to == n && ev.sent)
              || (ProposeMsg(r, a.proposer, n, a.payload) in c.msgs && !(ev.GetPropose? && ev.to == n))
  {
    var a := c.attempts[ev.round];
    MessageFate(c, ev, ProposeMsg(ev.round, a.proposer, n, a.payload));
  }

  lemma VoteFate(c: Cluster, ev: Event, n: int)
    requires Inv(c) && Enabled(c, ev) && !ev.Open? && ev.round in c.attempts && Addressed(c, ev)
    ensures var r, a := ev.round, c.attempts[ev.round];
            VoteMsg(r, n, a.proposer) in Next(c, ev).msgs <==>
              || (ev.GetPropose? && ev.to == n && ev.answered)
              || (VoteMsg(r, n, a.proposer) in c.msgs && !(ev.GetVote? && ev.from == n))
  {
    var a := c.attempts[ev.round];
    MessageFate(c, ev, VoteMsg(ev.round, n, a.proposer));
  }

  lemma CommitFate(c: Cluster, ev: Event, n: int)
    requires Inv(c) && Enabled(c, ev) && !ev.Open? && ev.round in c.attempts && Addressed(c, ev)
    ensures var r, a := ev.round, c.attempts[ev.round];
            CommitMsg(r, n, a.payload) in Next(c, ev).msgs <==>
              || (ev.DoCommit? && n in ev.targets)
              || (CommitMsg(r, n, a.payload) in c.msgs && !(ev.GetCommit? && ev.to == n))
  {
    var a := c.attempts[ev.round];
    MessageFate(c, ev, CommitMsg(ev.round, n, a.payload));
  }

  lemma ApplicationFate(c: Cluster, ev: Event, n: int)
    requires Enabled(c, ev) && !ev.Open? && ev.round in c.attempts && Addressed(c, ev)
    ensures var r, a := ev.round, c.attempts[ev.round];
            Application(r, n, a.payload) in Next(c, ev).applied <==>
              || Application(r, n, a.payload) in c.applied
              || (ev.GetCommit? && ev.to == n) || (ev.DoCommit? && n == a.proposer)
  {
  }

  lemma OwnMessages(c: Cluster, ev: Event, n: int)
    requires Inv(c) && Enabled(c, ev) && !ev.Open? && ev.round in c.attempts && Addressed(c, ev)
    ensures MessagesStep(c, Next(c, ev), ev, n)
  {
    ProposeFate(c, ev, n);
    VoteFate(c, ev, n);
    CommitFate(c, ev, n);
    ApplicationFate(c, ev, n);
  }

  lemma OwnRoundOk(c: Cluster, ev: Event, past: seq<Event>)
    requires Inv(c) && Enabled(c, ev) && !ev.Open? && ev.round in c.attempts && RoundOk(c, ev.round, past)
    ensures ev.round in Next(c, ev).attempts && RoundOk(Next(c, ev), ev.round, past + [ev])
  {
    var p := c.attempts[ev.round].proposer;
    OneMore(past, ev);
    ToldMore(past, ev, ev.round, p);
    EventIsAddressed(c, ev);
    OwnAttempt(c, ev, p);
    OwnMessages(c, ev, p);
  }

  lemma NodeKept(c: Cluster, d: Cluster, ev: Event, n: int, past: seq<Event>)
    requires ev.round in c.attempts && ev.round in d.attempts && Addressed(c, ev)
    requires AttemptSteps(c.attempts[ev.round], d.attempts[ev.round], ev, n) && MessagesStep(c, d, ev, n)
    requires NodeOk(c, ev.round, n, past)
    ensures NodeOk(d, ev.round, n, past + [ev])
  {
    OneMore(past, ev);
    ToldMore(past, ev, ev.round, n);
    assert AskedOk(d, ev.round, n, past + [ev]);
    assert VoteOk(d, ev.round, n, past + [ev]);
    assert ToldOk(d, ev.round, n, past + [ev]);
  }

  lemma OwnNodeOk(c: Cluster, ev: Event, n: int, past: seq<Event>)
    requires Inv(c) && Enabled(c, ev) && !ev.Open? && ev.round in c.attempts && NodeOk(c, ev.round, n, past)
    ensures ev.round in Next(c, ev).attempts && NodeOk(Next(c, ev), ev.round, n, past + [ev])
  {
    EventIsAddressed(c, ev);
    OwnAttempt(c, ev, n);
    OwnMessages(c, ev, n);
    NodeKept(c, Next(c, ev), ev, n, past);
  }

  lemma NodeStep(c: Cluster, ev: Event, r: int, n: int, past: seq<Event>)
    requires Inv(c) && Enabled(c, ev) && Witnessed(c, past) && r in Next(c, ev).attempts
    ensures RoundOk(Next(c, ev), r, past + [ev]) && NodeOk(Next(c, ev), r, n, past + [ev])
  {
    if r in c.attempts {
      assert RoundOk(c, r, past) && NodeOk(c, r, n, past);
      if r != ev.round {
        OtherRoundOk(c, ev, r, n, past);
      } else {
        OwnRoundOk(c, ev, past);
        OwnNodeOk(c, ev, n, past);
      }
    } else {
      assert Unheard(past, r);
      NewRoundOk(c, ev, n, past);
    }
  }

  lemma WitnessedStep(c: Cluster, ev: Event, past: seq<Event>)
    requires Inv(c) && Enabled(c, ev) && Witnessed(c, past)
    ensures Witnessed(Next(c, ev), past + [ev])
  {
    var d, now := Next(c, ev), past + [ev];
    OneMore(past, ev);
    forall r, n | r in d.attempts ensures RoundOk(d, r, now) && NodeOk(d, r, n, now) {
      NodeStep(c, ev, r, n, past);
    }
    forall r | r in d.attempts ensures RoundOk(d, r, now) {
      NodeStep(c, ev, r, 0, past);
    }
    forall r | r !in d.attempts ensures Unheard(now, r) {
      assert Unheard(past, r);
      if !ev.Open? {
        KnownRound(c, ev);
      }
    }
  }

  lemma {:induction false} WitnessedAlways(c: Cluster, past: seq<Event>, evs: seq<Event>)
    requires Inv(c) && Legal(c, evs) && Witnessed(c, past)
    ensures Witnessed(Run(c, evs), past + evs)
    decreases |evs|
  {
    if evs == [] {
      assert past + evs == past;
    } else {
      var ev, rest := evs[0], evs[1..];
      StepKeeps(c, ev);
      WitnessedStep(c, ev, past);
      WitnessedAlways(Next(c, ev), past + [ev], rest);
      OneOn(past, evs);
    }
  }

  lemma RunIsWitnessed(c: Cluster, evs: seq<Event>)
    requires Init(c) && Legal(c, evs)
    ensures Inv(Run(c, evs)) && Witnessed(Run(c, evs), evs)
  {
    WitnessedAlways(c, [], evs);
    InvAlways(c, evs);
    assert [] + evs == evs;
  }

  // ---- for every run -----------------------------------------------------------------------------------

  lemma RoundOfRun(c: Cluster, evs: seq<Event>, r: int, n: int)
    requires Init(c) && Legal(c, evs) && r in Run(c, evs).attempts
    ensures RoundOk(Run(c, evs), r, evs) && NodeOk(Run(c, evs), r, n, evs)
  {
    RunIsWitnessed(c, evs);
  }

  /** A round has been committed if and only if its proposer has decided so; then, and only then, the proposer
      has applied what it had proposed.  Another node has applied it or has its COMMIT still coming if and only
      if the COMMIT went out to it. */
  lemma CommitIsAppliedOrComing(c: Cluster, evs: seq<Event>, r: int, n: int)
    requires Init(c) && Legal(c, evs) && r in Run(c, evs).attempts
    ensures var d := Run(c, evs);
            var a := d.attempts[r];
            && Open(r, a.proposer, a.peers, a.payload) in evs
            && (a.stage == Committed <==> exists targets {:trigger DoCommit(r, targets)} :: DoCommit(r, targets) in evs)
            && (a.stage == Committed <==> Application(r, a.proposer, a.payload) in d.applied)
            && (n != a.proposer ==>
                  (CommitMsg(r, n, a.payload) in d.msgs || Application(r, n, a.payload) in d.applied
                   <==> exists targets {:trigger DoCommit(r, targets)} :: DoCommit(r, targets) in evs && n in targets))
  {
    RoundOfRun(c, evs, r, n);
  }

  /** No vote is made up and none is lost: who has voted for a round has answered its PROPOSE with a vote, or is
      its proposer; the proposer has counted or dropped that vote, or it is on its way; and a PROPOSE has been
      handled or is on its way exactly if it was sent. */
  lemma VotesAreAnswers(c: Cluster, evs: seq<Event>, r: int, n: int)
    requires Init(c) && Legal(c, evs) && r in Run(c, evs).attempts
    ensures var d := Run(c, evs);
            var a := d.attempts[r];
            && (n == a.proposer ==> (n in a.voters <==> VoteSelf(r) in evs))
            && (n != a.proposer ==> (n in a.voters <==> GetPropose(r, a.proposer, n, a.payload, true) in evs))
            && (n != a.proposer && n in a.voters ==>
                  VoteMsg(r, n, a.proposer) in d.msgs || GetVote(r, n, a.proposer) in evs)
            && (n != a.proposer && IsOpen(a) ==> (n in a.counted <==> GetVote(r, n, a.proposer) in evs))
            && (SendPropose(r, n, true) in evs <==>
                  || ProposeMsg(r, a.proposer, n, a.payload) in d.msgs
                  || GetPropose(r, a.proposer, n, a.payload, true) in evs
                  || GetPropose(r, a.proposer, n, a.payload, false) in evs)
  {
    RoundOfRun(c, evs, r, n);
  }
}
