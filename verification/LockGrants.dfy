/** Whether a caller that waits for the lock is told when it gets it (internal/mutex/mutex.go).

    A local caller queues itself in one critical section and registers its channel in another.  When the
    lock is passed to it in between, the release finds no channel and sends LOCK_GRANT to its own node;
    whether that is of any use depends on which comes first, the message or the registration. */
module LockGrants {
  import opened LockEngine
  import opened LockCluster
  import Paths

  predicate Waiting(c: Cluster, r: ReqId) {
    r in c.attempts && (c.attempts[r].phase == Phase.Enqueued || c.attempts[r].phase == Phase.Waiting)
  }

  predicate HoldsLock(c: Cluster, r: ReqId) {
    r in c.attempts && c.attempts[r].arbiter in c.engines && c.engines[c.attempts[r].arbiter].holder == r
  }

  /** A grant for r is on the network or in its channel. */
  ghost predicate GrantComing(c: Cluster, r: ReqId) {
    && r in c.attempts && c.attempts[r].owner in c.engines
    && (Granted(c, r) || HasToken(c, r))
  }

  /** Who waits and has the lock already will be told. */
  ghost predicate ServedAt(c: Cluster, r: ReqId) {
    Waiting(c, r) && HoldsLock(c, r) ==> GrantComing(c, r)
  }

  ghost predicate Served(c: Cluster) {
    forall r {:trigger ServedAt(c, r)} :: ServedAt(c, r)
  }

  /** A caller that waits has its channel registered, unless a release has used it up. */
  ghost predicate RegisteredAt(c: Cluster, r: ReqId) {
    r in c.attempts && c.attempts[r].phase == Phase.Waiting && c.attempts[r].owner in c.engines ==>
      r in c.engines[c.attempts[r].owner].grants || HasToken(c, r)
  }

  ghost predicate Registered(c: Cluster) {
    forall r {:trigger RegisteredAt(c, r)} :: RegisteredAt(c, r)
  }

  /** A LOCK_GRANT that arrives between queueing and registering. */
  predicate InTheGap(c: Cluster, ev: Event) {
    ev.Deliver? && ev.msg.Grant? && ev.msg.req in c.attempts && c.attempts[ev.msg.req].phase == Phase.Enqueued
  }

  /** Both for one request. */
  ghost predicate Fine(c: Cluster, q: ReqId) {
    RegisteredAt(c, q) && ServedAt(c, q)
  }

  // ---- paths --------------------------------------------------------------------------------------

  ghost function AnyStep(): (Cluster, Event, Cluster) -> bool {
    (c, ev, d) => Enabled(c, ev) && Next(c, ev) == d
  }

  ghost predicate Reaches(c: Cluster, d: Cluster) {
    Paths.Reaches(AnyStep(), c, d)
  }

  lemma ReachesSelf(c: Cluster)
    ensures Reaches(c, c)
  {
    Paths.ReachesSelf(AnyStep(), c);
  }

  lemma ReachesOn(c: Cluster, d: Cluster, ev: Event)
    requires Reaches(c, d) && Enabled(d, ev)
    ensures Reaches(c, Next(d, ev))
  {
    assert AnyStep()(d, ev, Next(d, ev));
    Paths.ReachesOn(AnyStep(), c, d, ev, Next(d, ev));
  }

  lemma {:induction false} LeadsIsRun(c: Cluster, evs: seq<Event>, d: Cluster)
    requires Paths.Leads(AnyStep(), c, evs, d)
    ensures Legal(c, evs) && Run(c, evs) == d
    decreases |evs|
  {
    if evs == [] {
    } else {
      var e :| AnyStep()(c, evs[0], e) && Paths.Leads(AnyStep(), e, evs[1..], d);
      LeadsIsRun(e, evs[1..], d);
    }
  }

  /** What a state leads to is the end of a run from it. */
  lemma ReachesIsRun(c: Cluster, d: Cluster) returns (evs: seq<Event>)
    requires Reaches(c, d)
    ensures Legal(c, evs) && Run(c, evs) == d
  {
    evs :| Paths.Leads(AnyStep(), c, evs, d);
    LeadsIsRun(c, evs, d);
  }

  // ---- one request through every step -------------------------------------------------------------

  lemma StartLocalFine(c: Cluster, r: ReqId, n: int, q: ReqId)
    requires Inv(c) && Fresh(c, r, n) && Fine(c, q)
    ensures Fine(EnterLocal(c, r, n), q)
  {
    FreshIsNowhere(c, r);
    assert q in c.attempts ==> AttemptOk(c, q);
  }

  lemma RegisterLocalFine(c: Cluster, r: ReqId, q: ReqId)
    requires Inv(c) && At(c, r, Phase.Enqueued) && Fine(c, q)
    ensures Fine(Move(c, r, Phase.Waiting, Register(c.engines[c.attempts[r].owner], r)), q)
  {
  }

  lemma StartRemoteFine(c: Cluster, r: ReqId, n: int, to: int, sent: bool, q: ReqId)
    requires Inv(c) && Fresh(c, r, n) && to in c.engines && Fine(c, q)
    ensures Fine(EnterRemote(c, r, n, to, sent), q)
  {
    FreshIsNowhere(c, r);
  }

  lemma WakeFine(c: Cluster, r: ReqId, q: ReqId)
    requires Inv(c) && At(c, r, Phase.Waiting) && r in c.engines[c.attempts[r].owner].tokens && Fine(c, q)
    ensures Fine(Move(c, r, Held, TakeToken(c.engines[c.attempts[r].owner], r)), q)
  {
    var n := c.attempts[r].owner;
    var d := Move(c, r, Held, TakeToken(c.engines[n], r));
    if q != r && q in c.attempts {
      assert q in c.engines[n].tokens <==> q in d.engines[n].tokens;
      assert HoldsLock(d, q) <==> HoldsLock(c, q);
    }
  }

  lemma GiveUpFine(c: Cluster, r: ReqId, timeout: bool, q: ReqId)
    requires Inv(c) && At(c, r, Phase.Waiting) && Fine(c, q)
    ensures Fine(GiveUp(c, r, timeout), q)
  {
  }

  /** The release grants the lock to the request that it makes holder: into its channel, or by message. */
  lemma PassOnGrants(c: Cluster, n: int, r: ReqId, q: ReqId)
    requires Inv(c) && n in c.engines && c.engines[n].holder == r && c.engines[n].queue != []
    requires q == c.engines[n].queue[0].req
    ensures GrantComing(Put(c, n, PassOn(c.engines[n], c.engines.Keys, r)), q)
  {
    assert EngineOk(c, n);
    assert AttemptOk(c, q);
  }

  lemma PassOnOthers(c: Cluster, n: int, r: ReqId, q: ReqId)
    requires Inv(c) && n in c.engines && q in c.attempts
    requires c.engines[n].holder != r || c.engines[n].queue == [] || q != c.engines[n].queue[0].req
    ensures var d := Put(c, n, PassOn(c.engines[n], c.engines.Keys, r));
            && (HoldsLock(d, q) ==> HoldsLock(c, q))
            && (GrantComing(c, q) ==> GrantComing(d, q))
  {
    assert AttemptOk(c, q);
  }

  lemma PassOnServes(c: Cluster, n: int, r: ReqId, q: ReqId)
    requires Inv(c) && n in c.engines && ServedAt(c, q)
    ensures ServedAt(Put(c, n, PassOn(c.engines[n], c.engines.Keys, r)), q)
  {
    var e := c.engines[n];
    if e.holder == r && e.queue != [] && q == e.queue[0].req {
      PassOnGrants(c, n, r, q);
    } else if q in c.attempts {
      PassOnOthers(c, n, r, q);
    }
  }

  lemma PassOnRegisters(c: Cluster, n: int, r: ReqId, q: ReqId)
    requires Inv(c) && n in c.engines && RegisteredAt(c, q)
    ensures RegisteredAt(Put(c, n, PassOn(c.engines[n], c.engines.Keys, r)), q)
  {
    assert EngineOk(c, n);
  }

  lemma LetGoFine(c: Cluster, r: ReqId, q: ReqId)
    requires Inv(c) && At(c, r, Held) && c.attempts[r].owner in c.master && Fine(c, q)
    ensures Fine(Leave(c, r), q)
  {
    var done := SetPhase(c, r, Released);
    ReleasedKeeps(c, r);
    assert Fine(done, q);
    if c.attempts[r].local {
      PassOnServes(done, c.attempts[r].owner, r, q);
      PassOnRegisters(done, c.attempts[r].owner, r, q);
    }
  }

  lemma RequestFine(c: Cluster, m: LockMsg, q: ReqId)
    requires Inv(c) && m.Request? && m in c.msgs && Fine(c, q)
    ensures m.to in c.engines && Fine(Receive(Taken(c, m), m), q)
  {
    assert MsgOk(c, m);
    assert AttemptOk(c, m.req);
    assert q in c.attempts ==> AttemptOk(c, q);
  }

  lemma ReleaseFine(c: Cluster, m: LockMsg, q: ReqId)
    requires Inv(c) && m.Release? && m in c.msgs && Fine(c, q)
    ensures m.to in c.engines && Fine(Receive(Taken(c, m), m), q)
  {
    assert MsgOk(c, m);
    DroppedKeeps(c, m);
    assert Fine(Taken(c, m), q);
    PassOnServes(Taken(c, m), m.to, m.req, q);
    PassOnRegisters(Taken(c, m), m.to, m.req, q);
  }

  /** A grant that reaches a caller with a registered channel is kept for it. */
  lemma GrantFine(c: Cluster, m: LockMsg, q: ReqId)
    requires Inv(c) && m.Grant? && m in c.msgs && Fine(c, q) && !InTheGap(c, Deliver(m))
    ensures m.to in c.engines && Fine(Receive(Taken(c, m), m), q)
  {
    assert MsgOk(c, m);
    assert AttemptOk(c, m.req);
  }

  lemma DeliverFine(c: Cluster, m: LockMsg, q: ReqId)
    requires Inv(c) && Enabled(c, Deliver(m)) && Fine(c, q) && !InTheGap(c, Deliver(m))
    ensures Fine(Receive(Taken(c, m), m), q)
  {
    match m
    case Request(_, _, _) => RequestFine(c, m, q);
    case Release(_, _) => ReleaseFine(c, m, q);
    case Grant(_, _) => GrantFine(c, m, q);
    case Deny(_, _) =>
  }

  lemma StepFine(c: Cluster, ev: Event, q: ReqId)
    requires Inv(c) && Enabled(c, ev) && Fine(c, q) && !InTheGap(c, ev)
    ensures Fine(Next(c, ev), q)
  {
    match ev
    case StartLocal(r, n) => StartLocalFine(c, r, n, q);
    case RegisterLocal(r) => RegisterLocalFine(c, r, q);
    case StartRemote(r, n, sent) => StartRemoteFine(c, r, n, c.master[n], sent, q);
    case Wake(r) => WakeFine(c, r, q);
    case Timeout(r) => GiveUpFine(c, r, true, q);
    case Cancel(r) => GiveUpFine(c, r, false, q);
    case LetGo(r) => LetGoFine(c, r, q);
    case Deliver(m) => DeliverFine(c, m, q);
    case ChangeMaster(_, _) =>
  }

  // ---- a caller stays registered, whatever happens -----------------------------------------------

  lemma StepRegistered(c: Cluster, ev: Event, q: ReqId)
    requires Inv(c) && Enabled(c, ev) && RegisteredAt(c, q)
    ensures RegisteredAt(Next(c, ev), q)
  {
    match ev
    case StartLocal(r, n) => FreshIsNowhere(c, r);
    case StartRemote(r, n, sent) => FreshIsNowhere(c, r);
    case LetGo(r) => LetGoRegistered(c, r, q);
    case Deliver(m) => DeliverRegistered(c, m, q);
    case Wake(r) => WakeRegistered(c, r, q);
    case RegisterLocal(r) => RegisterRegistered(c, r, q);
    case _ =>
  }

  lemma RegisterRegistered(c: Cluster, r: ReqId, q: ReqId)
    requires Inv(c) && At(c, r, Phase.Enqueued) && RegisteredAt(c, q)
    ensures RegisteredAt(Move(c, r, Phase.Waiting, Register(c.engines[c.attempts[r].owner], r)), q)
  {
  }

  lemma WakeRegistered(c: Cluster, r: ReqId, q: ReqId)
    requires Inv(c) && At(c, r, Phase.Waiting) && r in c.engines[c.attempts[r].owner].tokens && RegisteredAt(c, q)
    ensures RegisteredAt(Move(c, r, Held, TakeToken(c.engines[c.attempts[r].owner], r)), q)
  {
    var n := c.attempts[r].owner;
    var d := Move(c, r, Held, TakeToken(c.engines[n], r));
    if q != r && q in c.attempts {
      assert q in c.engines[n].tokens <==> q in d.engines[n].tokens;
    }
  }

  lemma LetGoRegistered(c: Cluster, r: ReqId, q: ReqId)
    requires Inv(c) && Enabled(c, LetGo(r)) && RegisteredAt(c, q)
    ensures RegisteredAt(Leave(c, r), q)
  {
    var done := SetPhase(c, r, Released);
    ReleasedKeeps(c, r);
    assert RegisteredAt(done, q);
    if c.attempts[r].local {
      PassOnRegisters(done, c.attempts[r].owner, r, q);
    }
  }

  lemma DeliverRegistered(c: Cluster, m: LockMsg, q: ReqId)
    requires Inv(c) && Enabled(c, Deliver(m)) && RegisteredAt(c, q)
    ensures RegisteredAt(Receive(Taken(c, m), m), q)
  {
    DroppedKeeps(c, m);
    assert RegisteredAt(Taken(c, m), q);
    if m.Release? {
      PassOnRegisters(Taken(c, m), m.to, m.req, q);
    }
  }

  lemma {:induction false} RegisteredAlways(c: Cluster, evs: seq<Event>)
    requires Inv(c) && Registered(c) && Legal(c, evs)
    ensures Registered(Run(c, evs))
    decreases |evs|
  {
    if evs == [] {
    } else {
      RegisteredStep(c, evs[0]);
      StepKeeps(c, evs[0]);
      RegisteredAlways(Next(c, evs[0]), evs[1..]);
    }
  }

  lemma RegisteredStep(c: Cluster, ev: Event)
    requires Inv(c) && Registered(c) && Enabled(c, ev)
    ensures Registered(Next(c, ev))
  {
    forall q ensures RegisteredAt(Next(c, ev), q) {
      StepRegistered(c, ev, q);
    }
  }

  lemma InitRegistered(start: Cluster)
    requires Init(start)
    ensures Inv(start) && Registered(start)
  {
  }

  // ---- every run ----------------------------------------------------------------------------------

  /** No LOCK_GRANT arrives in the gap. */
  ghost predicate NeverInTheGap(c: Cluster, evs: seq<Event>)
    requires Legal(c, evs)
    decreases |evs|
  {
    evs == [] || (!InTheGap(c, evs[0]) && NeverInTheGap(Next(c, evs[0]), evs[1..]))
  }

  lemma {:induction false} FineAlways(c: Cluster, evs: seq<Event>, q: ReqId)
    requires Inv(c) && Legal(c, evs) && NeverInTheGap(c, evs) && Fine(c, q)
    ensures Fine(Run(c, evs), q)
    decreases |evs|
  {
    if evs == [] {
    } else {
      StepFine(c, evs[0], q);
      StepKeeps(c, evs[0]);
      FineAlways(Next(c, evs[0]), evs[1..], q);
    }
  }

  /** The caller of q takes its grant now, or once the grant on the network has been delivered. */
  ghost predicate WillBeTold(c: Cluster, q: ReqId)
    requires q in c.attempts
  {
    Enabled(c, Wake(q)) || Enabled(c, Deliver(Grant(q, c.attempts[q].owner)))
  }

  /** In every run in which no grant arrives in the gap, a caller that waits for a lock it already has can
      take its grant, or will be able to as soon as the grant on the network is delivered. */
  lemma WaitingHolderIsTold(start: Cluster, evs: seq<Event>, q: ReqId)
    requires Init(start) && Legal(start, evs) && NeverInTheGap(start, evs)
    requires At(Run(start, evs), q, Phase.Waiting) && HoldsLock(Run(start, evs), q)
    ensures WillBeTold(Run(start, evs), q)
  {
    InvAlways(start, evs);
    FineAlways(start, evs, q);
    var c := Run(start, evs);
    assert AttemptOk(c, q);
  }

  /** At every moment of every run, whatever grants have been lost before: one delivery leaves a waiting
      holder without a grant if and only if it happens in the gap. */
  lemma GrantLostIff(start: Cluster, evs: seq<Event>, m: LockMsg)
    requires Init(start) && Legal(start, evs)
    requires Enabled(Run(start, evs), Deliver(m)) && m.Grant? && Waiting(Run(start, evs), m.req)
    ensures var c := Run(start, evs);
            ServedAt(Next(c, Deliver(m)), m.req) <==> !InTheGap(c, Deliver(m))
  {
    InitRegistered(start);
    InvAlways(start, evs);
    RegisteredAlways(start, evs);
    var c := Run(start, evs);
    assert MsgOk(c, m) && AttemptOk(c, m.req);
    if InTheGap(c, Deliver(m)) {
      DroppedInTheGap(c, m);
    } else {
      assert RegisteredAt(c, m.req) && Granted(c, m.req);
      StepFine(c, Deliver(m), m.req);
    }
  }

  lemma DroppedInTheGap(c: Cluster, m: LockMsg)
    requires Inv(c) && Enabled(c, Deliver(m)) && InTheGap(c, Deliver(m))
    ensures var d := Next(c, Deliver(m));
            m.req in d.attempts && Waiting(d, m.req) && HoldsLock(d, m.req) && !GrantComing(d, m.req)
  {
    assert MsgOk(c, m) && AttemptOk(c, m.req);
    assert EngineOk(c, m.to);
    assert c.msgs[m] == 1;
  }

  // ---- it does happen -------------------------------------------------------------------------------

  /** One node, its own master, with the given engine, attempts and messages. */
  function Single(e: EngineState, attempts: map<ReqId, Attempt>, msgs: multiset<LockMsg>): Cluster {
    Cluster(map[1 := e], map[1 := 1], attempts, msgs)
  }

  function Local(phase: Phase): Attempt {
    Attempt(1, 1, true, phase)
  }

  const FIRST := Uuid(1)
  const SECOND := Uuid(2)

  /** Nothing has happened; the first caller has the lock; the second is in the queue; the first has let go. */
  function Moment(k: nat): Cluster {
    if k == 0 then Single(IDLE, map[], multiset{})
    else if k == 1 then Single(EngineState(FIRST, [], {}, multiset{}), map[FIRST := Local(Held)], multiset{})
    else if k == 2 then
      Single(EngineState(FIRST, [Pending(SECOND, 1)], {}, multiset{}),
             map[FIRST := Local(Held), SECOND := Local(Phase.Enqueued)], multiset{})
    else
      Single(EngineState(SECOND, [], {}, multiset{}),
             map[FIRST := Local(Released), SECOND := Local(Phase.Enqueued)], multiset{Grant(SECOND, 1)})
  }

  lemma FirstCaller()
    ensures Enabled(Moment(0), StartLocal(FIRST, 1)) && Next(Moment(0), StartLocal(FIRST, 1)) == Moment(1)
  {
    assert Moment(0).engines[1 := Moment(1).engines[1]] == Moment(1).engines;
  }

  lemma SecondCaller()
    ensures Enabled(Moment(1), StartLocal(SECOND, 1)) && Next(Moment(1), StartLocal(SECOND, 1)) == Moment(2)
  {
    assert [] + [Pending(SECOND, 1)] == [Pending(SECOND, 1)];
    assert Moment(1).engines[1 := Moment(2).engines[1]] == Moment(2).engines;
    assert Moment(1).attempts[SECOND := Local(Phase.Enqueued)] == Moment(2).attempts;
  }

  lemma HandedOver()
    ensures Enabled(Moment(2), LetGo(FIRST)) && Next(Moment(2), LetGo(FIRST)) == Moment(3)
    ensures InTheGap(Moment(3), Deliver(Grant(SECOND, 1))) && Enabled(Moment(3), Deliver(Grant(SECOND, 1)))
  {
    var e := Moment(2).engines[1];
    assert e.queue[1..] == [];
    assert PassOn(e, {1}, FIRST) == Outcome(Moment(3).engines[1], [Grant(SECOND, 1)]);
    assert Moment(2).engines.Keys == {1};
    assert multiset{} + multiset([Grant(SECOND, 1)]) == multiset{Grant(SECOND, 1)};
  }

  lemma ReachesTheGap()
    ensures Reaches(Moment(0), Moment(3))
  {
    FirstCaller();
    SecondCaller();
    HandedOver();
    ReachesSelf(Moment(0));
    ReachesOn(Moment(0), Moment(0), StartLocal(FIRST, 1));
    ReachesOn(Moment(0), Moment(1), StartLocal(SECOND, 1));
    ReachesOn(Moment(0), Moment(2), LetGo(FIRST));
  }

  lemma LosesGrant(start: Cluster, c: Cluster, m: LockMsg) returns (evs: seq<Event>)
    requires Init(start) && Reaches(start, c) && Enabled(c, Deliver(m)) && InTheGap(c, Deliver(m))
    ensures Legal(start, evs)
    ensures var d := Run(start, evs); Waiting(d, m.req) && HoldsLock(d, m.req) && !GrantComing(d, m.req)
  {
    var before := ReachesIsRun(start, c);
    InvAlways(start, before);
    DroppedInTheGap(c, m);
    ReachesOn(start, c, Deliver(m));
    evs := ReachesIsRun(start, Next(c, Deliver(m)));
  }

  /** Two local callers on one node are enough: the second has the lock and will never be told. */
  lemma GrantIsLostInTheGap() returns (start: Cluster, evs: seq<Event>, q: ReqId)
    ensures Init(start) && Legal(start, evs)
    ensures var c := Run(start, evs); Waiting(c, q) && HoldsLock(c, q) && !GrantComing(c, q)
  {
    start, q := Moment(0), SECOND;
    ReachesTheGap();
    HandedOver();
    evs := LosesGrant(start, Moment(3), Grant(q, 1));
  }
}
