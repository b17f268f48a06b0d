/** When a lock is lost (internal/mutex/mutex.go): an arbiter keeps the lock for a request that will never
    let go of it.  There is no lease and no other way to take it back. */
module LockLoss {
  import opened LockEngine
  import opened LockCluster
  import opened LockGrants
  import opened LockPaths
  import Paths

  /** The request that has node n's lock can still let go of it: it is between acquire and release, or waits
      and will be told, or its LOCK_RELEASE is on the way to that node. */
  ghost predicate CanLetGo(c: Cluster, n: int, r: ReqId)
    requires r in c.attempts
  {
    match c.attempts[r].phase
    case Held => true
    case Enqueued => GrantComing(c, r)
    case Waiting => GrantComing(c, r)
    case Released => Release(r, n) in c.msgs
    case Failed => false
  }

  /** The lock of node n is lost. */
  ghost predicate Lost(c: Cluster, n: int) {
    && n in c.engines && c.engines[n].holder in c.attempts && c.engines[n].holder != Nobody
    && !CanLetGo(c, n, c.engines[n].holder)
  }

  // ---- lost for good -----------------------------------------------------------------------------------

  /** No grant is made for a request that has the lock already. */
  lemma NoSecondGrant(c: Cluster, n: int, q: ReqId, r: ReqId)
    requires Inv(c) && n in c.engines && r in c.attempts && HoldsLock(c, r) && !GrantComing(c, r)
    ensures var d := Put(c, n, PassOn(c.engines[n], c.engines.Keys, q));
            r in d.attempts && !GrantComing(d, r)
  {
    assert AttemptOk(c, r);
    assert EngineOk(c, n);
    assert EngineOk(c, c.attempts[r].arbiter);
    if c.engines[n].holder == q && c.engines[n].queue != [] {
      var next := c.engines[n].queue[0];
      assert AttemptOk(c, next.req);
      assert next.req != r;
    }
  }

  lemma LostFrame(c: Cluster, d: Cluster, n: int)
    requires Lost(c, n) && n in d.engines && d.engines[n].holder == c.engines[n].holder
    requires var r := c.engines[n].holder;
             && r in d.attempts && d.attempts[r] == c.attempts[r]
             && (GrantComing(d, r) ==> GrantComing(c, r))
             && (Release(r, n) in d.msgs ==> Release(r, n) in c.msgs)
    ensures Lost(d, n)
  {
  }

  lemma NotTheHolder(c: Cluster, q: ReqId, n: int)
    requires Inv(c) && Enabled(c, LetGo(q)) && Lost(c, n)
    ensures q != c.engines[n].holder
    ensures c.engines[n].holder in c.attempts && AttemptOk(c, c.engines[n].holder)
    ensures c.attempts[c.engines[n].holder].arbiter == n
  {
    assert EngineOk(c, n) && AttemptOk(c, c.engines[n].holder);
  }

  /** A local release by another request. */
  lemma LostThroughLocalRelease(c: Cluster, q: ReqId, n: int)
    requires Inv(c) && Enabled(c, LetGo(q)) && c.attempts[q].local && Lost(c, n)
    ensures Lost(Leave(c, q), n) && Leave(c, q).engines[n].holder == c.engines[n].holder
  {
    var r, done, k := c.engines[n].holder, SetPhase(c, q, Released), c.attempts[q].owner;
    NotTheHolder(c, q, n);
    ReleasedKeeps(c, q);
    LostFrame(c, done, n);
    if LockGrants.Waiting(done, r) {
      NoSecondGrant(done, k, q, r);
    }
    assert EngineOk(done, n);
  }

  lemma LostThroughRemoteRelease(c: Cluster, q: ReqId, n: int)
    requires Inv(c) && Enabled(c, LetGo(q)) && !c.attempts[q].local && Lost(c, n)
    ensures Lost(Leave(c, q), n) && Leave(c, q).engines[n].holder == c.engines[n].holder
  {
    NotTheHolder(c, q, n);
    LostFrame(c, Leave(c, q), n);
  }

  lemma LostThroughRelease(c: Cluster, q: ReqId, n: int)
    requires Inv(c) && Enabled(c, LetGo(q)) && Lost(c, n)
    ensures Lost(Leave(c, q), n) && Leave(c, q).engines[n].holder == c.engines[n].holder
  {
    if c.attempts[q].local {
      LostThroughLocalRelease(c, q, n);
    } else {
      LostThroughRemoteRelease(c, q, n);
    }
  }

  /** What a request makes its arbiter send is about that request. */
  lemma RequestsElsewhere(c: Cluster, m: LockMsg, r: ReqId)
    requires Inv(c) && Enabled(c, Deliver(m)) && m.Request? && r in c.attempts && m.req != r
    ensures var d := Receive(Taken(c, m), m);
            && d.attempts == c.attempts && (GrantComing(d, r) ==> GrantComing(c, r))
            && forall k :: Release(r, k) in d.msgs ==> Release(r, k) in c.msgs
  {
  }

  lemma LostThroughRequest(c: Cluster, m: LockMsg, n: int)
    requires Inv(c) && Enabled(c, Deliver(m)) && m.Request? && Lost(c, n)
    ensures Lost(Receive(Taken(c, m), m), n) && Receive(Taken(c, m), m).engines[n].holder == c.engines[n].holder
  {
    var r := c.engines[n].holder;
    assert m.req != r by {
      assert MsgOk(c, m) && AttemptOk(c, m.req) && EngineOk(c, n);
    }
    RequestsElsewhere(c, m, r);
    MessageReaches(c, m, n);
    LostFrame(c, Receive(Taken(c, m), m), n);
  }

  lemma LostThroughGrant(c: Cluster, m: LockMsg, n: int)
    requires Inv(c) && Enabled(c, Deliver(m)) && m.Grant? && Lost(c, n)
    ensures Lost(Receive(Taken(c, m), m), n) && Receive(Taken(c, m), m).engines[n].holder == c.engines[n].holder
  {
    var r := c.engines[n].holder;
    assert MsgOk(c, m) && EngineOk(c, n) && AttemptOk(c, r);
    assert m.req == r && LockGrants.Waiting(c, r) ==> Granted(c, r);
  }

  lemma LostThroughLateRelease(c: Cluster, m: LockMsg, n: int)
    requires Inv(c) && Enabled(c, Deliver(m)) && m.Release? && Lost(c, n)
    ensures Lost(Receive(Taken(c, m), m), n) && Receive(Taken(c, m), m).engines[n].holder == c.engines[n].holder
  {
    var r := c.engines[n].holder;
    assert MsgOk(c, m) && EngineOk(c, n) && AttemptOk(c, r);
    DroppedKeeps(c, m);
    assert m.to == n ==> m.req != r;
    assert EngineOk(c, m.to);
    if LockGrants.Waiting(c, r) {
      assert !GrantComing(Taken(c, m), r);
      NoSecondGrant(Taken(c, m), m.to, m.req, r);
    }
  }

  lemma LostThroughDelivery(c: Cluster, m: LockMsg, n: int)
    requires Inv(c) && Enabled(c, Deliver(m)) && Lost(c, n)
    ensures Lost(Receive(Taken(c, m), m), n) && Receive(Taken(c, m), m).engines[n].holder == c.engines[n].holder
  {
    match m
    case Request(_, _, _) => LostThroughRequest(c, m, n);
    case Grant(_, _) => LostThroughGrant(c, m, n);
    case Release(_, _) => LostThroughLateRelease(c, m, n);
    case Deny(_, _) =>
  }

  lemma LostThroughArrival(c: Cluster, ev: Event, n: int)
    requires Inv(c) && Enabled(c, ev) && (ev.StartLocal? || ev.StartRemote?) && Lost(c, n)
    ensures Lost(Next(c, ev), n) && Next(c, ev).engines[n].holder == c.engines[n].holder
  {
    FreshIsNowhere(c, ev.r);
    assert AttemptOk(c, c.engines[n].holder);
  }

  lemma LostThroughRegistering(c: Cluster, q: ReqId, n: int)
    requires Inv(c) && At(c, q, Phase.Enqueued) && Lost(c, n)
    ensures Lost(Next(c, RegisterLocal(q)), n)
    ensures Next(c, RegisterLocal(q)).engines[n].holder == c.engines[n].holder
  {
    assert AttemptOk(c, c.engines[n].holder);
  }

  lemma LostThroughWaking(c: Cluster, q: ReqId, n: int)
    requires Inv(c) && Enabled(c, Wake(q)) && Lost(c, n)
    ensures Lost(Next(c, Wake(q)), n) && Next(c, Wake(q)).engines[n].holder == c.engines[n].holder
  {
    assert AttemptOk(c, c.engines[n].holder);
    assert q != c.engines[n].holder;
  }

  lemma LostThroughGivingUp(c: Cluster, q: ReqId, timeout: bool, n: int)
    requires Inv(c) && At(c, q, Phase.Waiting) && Lost(c, n)
    ensures Lost(GiveUp(c, q, timeout), n) && GiveUp(c, q, timeout).engines[n].holder == c.engines[n].holder
  {
    assert AttemptOk(c, c.engines[n].holder);
  }

  lemma LostStep(c: Cluster, ev: Event, n: int)
    requires Inv(c) && Enabled(c, ev) && Lost(c, n)
    ensures Lost(Next(c, ev), n) && Next(c, ev).engines[n].holder == c.engines[n].holder
  {
    match ev
    case StartLocal(_, _) => LostThroughArrival(c, ev, n);
    case StartRemote(_, _, _) => LostThroughArrival(c, ev, n);
    case LetGo(q) => LostThroughRelease(c, q, n);
    case Deliver(m) => LostThroughDelivery(c, m, n);
    case RegisterLocal(q) => LostThroughRegistering(c, q, n);
    case Wake(q) => LostThroughWaking(c, q, n);
    case Timeout(q) => LostThroughGivingUp(c, q, true, n);
    case Cancel(q) => LostThroughGivingUp(c, q, false, n);
    case ChangeMaster(_, _) =>
  }

  /** A lost lock stays with the request that has it, whatever happens. */
  lemma {:induction false} LostForever(c: Cluster, evs: seq<Event>, n: int)
    requires Inv(c) && Legal(c, evs) && Lost(c, n)
    ensures Lost(Run(c, evs), n) && Run(c, evs).engines[n].holder == c.engines[n].holder
    decreases |evs|
  {
    if evs == [] {
    } else {
      StepKeeps(c, evs[0]);
      LostStep(c, evs[0], n);
      LostForever(Next(c, evs[0]), evs[1..], n);
    }
  }

  // ---- not lost: a way to give it up ---------------------------------------------------------------------

  lemma SmoothlyReaches(c: Cluster, d: Cluster)
    requires Smoothly(c, d)
    ensures Reaches(c, d)
  {
    Paths.ReachesToo(SmoothStep(), AnyStep(), c, d);
  }

  lemma ReachesInv(c: Cluster, d: Cluster)
    requires Inv(c) && Registered(c) && Reaches(c, d)
    ensures Inv(d) && Registered(d)
  {
    forall x, ev, y | Sound(x) && AnyStep()(x, ev, y) ensures Sound(y) {
      StepSound(x, ev);
    }
    Paths.Kept(AnyStep(), Sound, c, d);
  }

  lemma PassedOn(c: Cluster, n: int, r: ReqId)
    requires Inv(c) && n in c.engines && c.engines[n].holder == r
    ensures r != Nobody ==> PassOn(c.engines[n], c.engines.Keys, r).state.holder != r
  {
    assert EngineOk(c, n);
  }

  /** A release that reaches the node takes the lock from its request. */
  lemma ReleaseArrives(c: Cluster, n: int, r: ReqId)
    requires Inv(c) && n in c.engines && c.engines[n].holder == r != Nobody && Release(r, n) in c.msgs
    ensures var ev := Deliver(Release(r, n));
            Enabled(c, ev) && n in Next(c, ev).engines && Next(c, ev).engines[n].holder != r
  {
    PassedOn(c, n, r);
  }

  lemma LetsGoLocally(c: Cluster, n: int, r: ReqId)
    requires Inv(c) && At(c, r, Held) && c.attempts[r].local && c.attempts[r].arbiter == n && HoldsLock(c, r)
    ensures Enabled(c, LetGo(r)) && n in Next(c, LetGo(r)).engines && Next(c, LetGo(r)).engines[n].holder != r
  {
    assert AttemptOk(c, r);
    PassedOn(c, n, r);
  }

  lemma LetsGoRemotely(c: Cluster, n: int, r: ReqId)
    requires Inv(c) && At(c, r, Held) && !c.attempts[r].local && n in c.engines && c.engines[n].holder == r
    requires c.attempts[r].owner in c.master && c.master[c.attempts[r].owner] == n
    ensures Enabled(c, LetGo(r))
    ensures var d := Next(c, LetGo(r)); n in d.engines && d.engines[n].holder == r && Release(r, n) in d.msgs
  {
  }

  /** Whoever is between acquire and release can let go, if need be after its node has come to know the
      arbiter as master again. */
  lemma HeldLetsGo(c: Cluster, n: int, r: ReqId) returns (d: Cluster)
    requires Inv(c) && Registered(c) && n in c.engines && c.engines[n].holder == r && At(c, r, Held)
    ensures Reaches(c, d) && n in d.engines && d.engines[n].holder != r
  {
    assert AttemptOk(c, r) && EngineOk(c, n);
    ReachesSelf(c);
    if c.attempts[r].local {
      LetsGoLocally(c, n, r);
      ReachesOn(c, c, LetGo(r));
      d := Next(c, LetGo(r));
    } else {
      var k := c.attempts[r].owner;
      var a := Next(c, ChangeMaster(k, n));
      ReachesOn(c, c, ChangeMaster(k, n));
      ReachesInv(c, a);
      LetsGoRemotely(a, n, r);
      ReachesOn(c, a, LetGo(r));
      d := ReleasedIsFreed(c, Next(a, LetGo(r)), n, r);
    }
  }

  lemma ReleasedIsFreed(c: Cluster, b: Cluster, n: int, r: ReqId) returns (d: Cluster)
    requires Inv(c) && Registered(c) && Reaches(c, b)
    requires n in b.engines && b.engines[n].holder == r != Nobody && Release(r, n) in b.msgs
    ensures Reaches(c, d) && n in d.engines && d.engines[n].holder != r
  {
    ReachesInv(c, b);
    ReleaseArrives(b, n, r);
    ReachesOn(c, b, Deliver(Release(r, n)));
    d := Next(b, Deliver(Release(r, n)));
  }

  lemma NotLostIsGivenUp(c: Cluster, n: int) returns (d: Cluster)
    requires Inv(c) && Registered(c) && n in c.engines && c.engines[n].holder != Nobody && !Lost(c, n)
    ensures Reaches(c, d) && n in d.engines && d.engines[n].holder != c.engines[n].holder
  {
    var r := c.engines[n].holder;
    assert EngineOk(c, n);
    assert AttemptOk(c, r);
    if c.attempts[r].phase == Released {
      ReachesSelf(c);
      d := ReleasedIsFreed(c, c, n, r);
    } else if c.attempts[r].phase == Held {
      d := HeldLetsGo(c, n, r);
    } else {
      var a := GetsTheLock(c, r);
      SmoothlyReaches(c, a);
      ReachesInv(c, a);
      d := HeldLetsGo(a, n, r);
      Paths.ReachesTrans(AnyStep(), c, a, d);
    }
  }

  /** At every moment of every run: the holder of a node's lock can still give it up if and only if it is
      between acquire and release, or waits with a grant coming, or its LOCK_RELEASE is on the way there. */
  lemma LockLostIff(start: Cluster, evs: seq<Event>, n: int)
    requires Init(start) && Legal(start, evs) && n in Run(start, evs).engines
    requires Run(start, evs).engines[n].holder != Nobody
    ensures var c := Run(start, evs);
            && c.engines[n].holder in c.attempts
            && (CanLetGo(c, n, c.engines[n].holder)
                <==> exists d {:trigger Reaches(c, d)} ::
                       Reaches(c, d) && n in d.engines && d.engines[n].holder != c.engines[n].holder)
  {
    InvAlways(start, evs);
    RegisteredAlways(start, evs);
    var c := Run(start, evs);
    assert EngineOk(c, n);
    if Lost(c, n) {
      forall d | Reaches(c, d) ensures n in d.engines ==> d.engines[n].holder == c.engines[n].holder {
        var more := ReachesIsRun(c, d);
        LostForever(c, more, n);
      }
    } else {
      var d := NotLostIsGivenUp(c, n);
    }
  }

  // ---- a lock that is about to be lost -------------------------------------------------------------------

  /** The lock is lost, or its holder has released it and the next in the queue has given up. */
  ghost predicate Doomed(c: Cluster, m: int) {
    && m in c.engines
    && (Lost(c, m)
        || (c.engines[m].holder in c.attempts && c.attempts[c.engines[m].holder].phase == Released && HeadFailed(c, m)))
  }

  lemma DoomedNobodyHolds(c: Cluster, m: int, q: ReqId)
    requires Inv(c) && OneMaster(c, m) && Doomed(c, m) && q in c.attempts
    ensures c.attempts[q].phase != Held
  {
    assert AttemptOk(c, q);
  }

  lemma DoomedFrame(c: Cluster, d: Cluster, m: int)
    requires Doomed(c, m) && !Lost(c, m) && m in d.engines && d.engines[m].holder == c.engines[m].holder
    requires d.engines[m].queue != [] && d.engines[m].queue[0] == c.engines[m].queue[0]
    requires forall q :: q in c.attempts && (c.attempts[q].phase == Failed || c.attempts[q].phase == Released) ==>
               q in d.attempts && d.attempts[q] == c.attempts[q]
    ensures Doomed(d, m)
  {
  }

  /** Who has failed or released stays so. */
  lemma EndedStays(c: Cluster, ev: Event, q: ReqId)
    requires Enabled(c, ev) && q in c.attempts && (c.attempts[q].phase == Failed || c.attempts[q].phase == Released)
    ensures q in Next(c, ev).attempts && Next(c, ev).attempts[q] == c.attempts[q]
  {
    match ev
    case LetGo(r) => AttemptsAfterRelease(c, r);
    case Deliver(m) => AttemptsAfterDelivery(c, m);
    case _ =>
  }

  lemma AttemptsAfterRelease(c: Cluster, r: ReqId)
    requires Enabled(c, LetGo(r))
    ensures Leave(c, r).attempts == c.attempts[r := c.attempts[r].(phase := Released)]
  {
  }

  lemma AttemptsAfterDelivery(c: Cluster, m: LockMsg)
    requires m.to in c.engines
    ensures Receive(Taken(c, m), m).attempts == c.attempts
  {
  }

  /** The same request holds the lock, and the same one is next. */
  ghost predicate SameHead(e: EngineState, f: EngineState) {
    f.holder == e.holder && (e.queue != [] ==> f.queue != [] && f.queue[0] == e.queue[0])
  }

  lemma OwnStepKeepsHead(c: Cluster, ev: Event, m: int)
    requires Enabled(c, ev) && !ev.Deliver? && !ev.LetGo? && m in c.engines && c.engines[m].holder != Nobody
    ensures m in Next(c, ev).engines && SameHead(c.engines[m], Next(c, ev).engines[m])
  {
  }

  lemma ReleaseKeepsHead(c: Cluster, r: ReqId, m: int)
    requires Enabled(c, LetGo(r)) && m in c.engines && c.engines[m].holder != r
    ensures m in Leave(c, r).engines && SameHead(c.engines[m], Leave(c, r).engines[m])
  {
    LeaveReaches(c, r, m);
  }

  lemma MessageKeepsHead(c: Cluster, msg: LockMsg, m: int)
    requires msg.to in c.engines && m in c.engines && c.engines[m].holder != Nobody
    requires msg != Release(c.engines[m].holder, m)
    ensures var d := Receive(Taken(c, msg), msg); m in d.engines && SameHead(c.engines[m], d.engines[m])
  {
    MessageReaches(c, msg, m);
  }

  /** Steps that do not pass the lock on leave the holder and the head of the queue. */
  lemma HeadStays(c: Cluster, ev: Event, m: int)
    requires Inv(c) && Enabled(c, ev) && m in c.engines && c.engines[m].queue != []
    requires c.engines[m].holder in c.attempts && c.attempts[c.engines[m].holder].phase == Released
    requires ev != Deliver(Release(c.engines[m].holder, m))
    ensures m in Next(c, ev).engines && SameHead(c.engines[m], Next(c, ev).engines[m])
  {
    assert EngineOk(c, m);
    match ev
    case Deliver(msg) => MessageKeepsHead(c, msg, m);
    case LetGo(r) => ReleaseKeepsHead(c, r, m);
    case _ => OwnStepKeepsHead(c, ev, m);
  }

  lemma LeaveReaches(c: Cluster, r: ReqId, n: int)
    requires Enabled(c, LetGo(r)) && n in c.engines
    ensures n in Leave(c, r).engines
    ensures Leave(c, r).engines[n] == if c.attempts[r].local && c.attempts[r].owner == n
                                      then PassOn(c.engines[n], c.engines.Keys, r).state else c.engines[n]
  {
  }

  lemma DoomedStep(c: Cluster, ev: Event, m: int)
    requires Inv(c) && Enabled(c, ev) && Doomed(c, m)
    ensures Doomed(Next(c, ev), m)
  {
    if Lost(c, m) {
      LostStep(c, ev, m);
    } else if ev == Deliver(Release(c.engines[m].holder, m)) {
      PassedToFailed(c, m);
    } else {
      HeadStays(c, ev, m);
      forall q | q in c.attempts && (c.attempts[q].phase == Failed || c.attempts[q].phase == Released)
        ensures q in Next(c, ev).attempts && Next(c, ev).attempts[q] == c.attempts[q]
      {
        EndedStays(c, ev, q);
      }
      DoomedFrame(c, Next(c, ev), m);
    }
  }

  lemma PassedToFailed(c: Cluster, m: int)
    requires Inv(c) && m in c.engines && HeadFailed(c, m) && Release(c.engines[m].holder, m) in c.msgs
    ensures Lost(Next(c, Deliver(Release(c.engines[m].holder, m))), m)
  {
    var msg := Release(c.engines[m].holder, m);
    assert EngineOk(c, m);
    MessageReaches(c, msg, m);
    AttemptsAfterDelivery(c, msg);
  }

  /** A release to a request that has given up dooms the lock. */
  lemma ReleaseDooms(c: Cluster, m: int, r: ReqId)
    requires Inv(c) && OneMaster(c, m) && Enabled(c, LetGo(r)) && m in c.engines && HeadFailed(c, m)
    ensures Doomed(Next(c, LetGo(r)), m)
  {
    assert AttemptOk(c, r) && EngineOk(c, m);
    LeaveReaches(c, r, m);
    AttemptsAfterRelease(c, r);
  }

  // ---- it does happen ---------------------------------------------------------------------------------

  lemma SecondTimesOut(c: Cluster, m: int, a: ReqId, b: ReqId)
    requires Inv(c) && At(c, a, Held) && c.attempts[a] == Attempt(m, m, true, Held)
    requires m in c.engines && c.engines[m].holder == a && c.engines[m].queue == []
    requires Fresh(c, b, m) && c.master[m] == m
    ensures Enabled(c, StartLocal(b, m))
    ensures var c1 := Next(c, StartLocal(b, m));
            && Enabled(c1, RegisterLocal(b))
            && var c2 := Next(c1, RegisterLocal(b));
               && Enabled(c2, Timeout(b))
               && var c3 := Next(c2, Timeout(b));
                  && At(c3, a, Held) && c3.attempts[a] == c.attempts[a] && At(c3, b, Failed)
                  && c3.engines[m].holder == a && c3.engines[m].queue == [Pending(b, m)]
                  && c3.master == c.master
  {
    assert AttemptOk(c, a);
    assert [] + [Pending(b, m)] == [Pending(b, m)];
  }

  lemma FailedTakesOver(c: Cluster, m: int, a: ReqId, b: ReqId)
    requires Inv(c) && At(c, a, Held) && c.attempts[a] == Attempt(m, m, true, Held) && At(c, b, Failed) && m in c.master
    requires m in c.engines && c.engines[m].holder == a && c.engines[m].queue == [Pending(b, m)] && b != Nobody
    ensures Enabled(c, LetGo(a)) && Lost(Next(c, LetGo(a)), m)
  {
    assert c.engines[m].queue[1..] == [];
  }

  /** On every node that is its own master: of two local callers the second times out, the first releases,
      and the lock is lost. */
  lemma LostByTimeout(start: Cluster, m: int) returns (evs: seq<Event>)
    requires Init(start) && m in start.engines && start.master[m] == m
    ensures Legal(start, evs) && Lost(Run(start, evs), m)
  {
    var a, b := Uuid(1), Uuid(2);
    InitRegistered(start);
    TakesLocally(start, m, a);
    var c := Next(start, StartLocal(a, m));
    ReachesSelf(start);
    ReachesOn(start, start, StartLocal(a, m));
    ReachesInv(start, c);
    SecondTimesOut(c, m, a, b);
    ReachesOn(start, c, StartLocal(b, m));
    ReachesOn(start, Next(c, StartLocal(b, m)), RegisterLocal(b));
    var c2 := Next(Next(c, StartLocal(b, m)), RegisterLocal(b));
    ReachesOn(start, c2, Timeout(b));
    ReachesInv(start, Next(c2, Timeout(b)));
    FailedTakesOver(Next(c2, Timeout(b)), m, a, b);
    ReachesOn(start, Next(c2, Timeout(b)), LetGo(a));
    evs := ReachesIsRun(start, Next(Next(c2, Timeout(b)), LetGo(a)));
  }

  lemma ReleasesElsewhere(c: Cluster, m: int, n: int, r: ReqId)
    requires Inv(c) && At(c, r, Held) && c.attempts[r] == Attempt(n, m, false, Held) && r != Nobody && n != m
    requires m in c.engines && n in c.engines && c.engines[m].holder == r && n in c.master
    ensures Enabled(c, ChangeMaster(n, n))
    ensures var a := Next(c, ChangeMaster(n, n));
            Enabled(a, LetGo(r)) && Lost(Next(a, LetGo(r)), m)
  {
    var a := Next(c, ChangeMaster(n, n));
    assert Release(r, m) in c.msgs ==> MsgOk(c, Release(r, m));
  }

  /** In every cluster of two nodes: while a node has the lock it gets another master, and releases to it;
      nobody timed out and no message was lost, and the first arbiter's lock is lost. */
  lemma LostByNewMaster(start: Cluster, m: int, n: int) returns (evs: seq<Event>)
    requires Init(start) && m in start.engines && n in start.engines && n != m && start.master[n] == m
    ensures Legal(start, evs) && Lost(Run(start, evs), m)
  {
    var r := Uuid(1);
    InitRegistered(start);
    var c := TakesTheLock(start, m, n, r);
    SmoothlyInv(start, c);
    SmoothlyReaches(start, c);
    ReleasesElsewhere(c, m, n, r);
    ReachesOn(start, c, ChangeMaster(n, n));
    var a := Next(c, ChangeMaster(n, n));
    ReachesOn(start, a, LetGo(r));
    evs := ReachesIsRun(start, Next(a, LetGo(r)));
  }
}
