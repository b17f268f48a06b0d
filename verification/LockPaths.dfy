/** Ways from one state of the lock cluster to another (internal/mutex/mutex.go), built step by step: how a
    lock is taken, how a grant reaches its caller, how a lock is given up. */
module LockPaths {
  import opened LockEngine
  import opened LockCluster
  import opened LockGrants
  import Paths

  // ---- paths ---------------------------------------------------------------------------------------

  /** Steps at which nobody gives up, lets go of the lock or changes its mind about the master. */
  predicate Smooth(ev: Event) {
    ev.StartLocal? || ev.StartRemote? || ev.RegisterLocal? || ev.Wake? || ev.Deliver?
  }

  ghost function SmoothStep(): (Cluster, Event, Cluster) -> bool {
    (c, ev, d) => Enabled(c, ev) && Smooth(ev) && Next(c, ev) == d
  }

  ghost predicate Smoothly(c: Cluster, d: Cluster) {
    Paths.Reaches(SmoothStep(), c, d)
  }

  lemma SmoothlyNowhere(c: Cluster)
    ensures Smoothly(c, c)
  {
    Paths.ReachesSelf(SmoothStep(), c);
  }

  lemma SmoothlyOn(c: Cluster, d: Cluster, ev: Event)
    requires Smoothly(c, d) && Enabled(d, ev) && Smooth(ev)
    ensures Smoothly(c, Next(d, ev))
  {
    assert SmoothStep()(d, ev, Next(d, ev));
    Paths.ReachesOn(SmoothStep(), c, d, ev, Next(d, ev));
  }

  lemma SmoothlyTrans(c: Cluster, d: Cluster, e: Cluster)
    requires Smoothly(c, d) && Smoothly(d, e)
    ensures Smoothly(c, e)
  {
    Paths.ReachesTrans(SmoothStep(), c, d, e);
  }

  ghost predicate Sound(c: Cluster) {
    Inv(c) && Registered(c)
  }

  lemma StepSound(c: Cluster, ev: Event)
    requires Sound(c) && Enabled(c, ev)
    ensures Sound(Next(c, ev))
  {
    StepKeeps(c, ev);
    RegisteredStep(c, ev);
  }

  lemma SmoothlyInv(c: Cluster, d: Cluster)
    requires Inv(c) && Registered(c) && Smoothly(c, d)
    ensures Inv(d) && Registered(d)
  {
    forall x, ev, y | Sound(x) && SmoothStep()(x, ev, y) ensures Sound(y) {
      StepSound(x, ev);
    }
    Paths.Kept(SmoothStep(), Sound, c, d);
  }

  // ---- how a grant reaches its caller ----------------------------------------------------------------

  /** Nothing has changed but how far request r and its grant have come. */
  ghost predicate OnlyGrantMoved(c: Cluster, d: Cluster, r: ReqId) {
    && d.master == c.master && d.engines.Keys == c.engines.Keys
    && (forall q :: q in c.attempts && q != r ==> q in d.attempts && d.attempts[q] == c.attempts[q])
    && d.attempts.Keys == c.attempts.Keys
    && r in c.attempts && r in d.attempts
    && d.attempts[r] == c.attempts[r].(phase := d.attempts[r].phase)
    && (forall n :: n in c.engines ==>
          d.engines[n].holder == c.engines[n].holder && d.engines[n].queue == c.engines[n].queue)
    && (forall m :: m in c.msgs && !m.Grant? ==> m in d.msgs)
  }

  lemma Registers(c: Cluster, r: ReqId)
    requires Inv(c) && At(c, r, Phase.Enqueued) && Granted(c, r)
    ensures Enabled(c, RegisterLocal(r))
    ensures var d := Next(c, RegisterLocal(r));
            OnlyGrantMoved(c, d, r) && At(d, r, Phase.Waiting) && Granted(d, r)
  {
  }

  lemma TokenArrives(c: Cluster, r: ReqId)
    requires Inv(c) && At(c, r, Phase.Waiting) && RegisteredAt(c, r) && Granted(c, r)
    ensures var ev := Deliver(Grant(r, c.attempts[r].owner));
            && Enabled(c, ev) && OnlyGrantMoved(c, Next(c, ev), r)
            && At(Next(c, ev), r, Phase.Waiting) && HasToken(Next(c, ev), r)
  {
    assert AttemptOk(c, r);
  }

  lemma Wakes(c: Cluster, r: ReqId)
    requires Inv(c) && At(c, r, Phase.Waiting) && HasToken(c, r)
    ensures Enabled(c, Wake(r)) && OnlyGrantMoved(c, Next(c, Wake(r)), r) && At(Next(c, Wake(r)), r, Held)
  {
  }

  lemma MovedTwice(c: Cluster, d: Cluster, e: Cluster, r: ReqId)
    requires OnlyGrantMoved(c, d, r) && OnlyGrantMoved(d, e, r)
    ensures OnlyGrantMoved(c, e, r)
  {
  }

  /** A caller whose grant is coming gets the lock. */
  lemma GetsTheLock(c: Cluster, r: ReqId) returns (d: Cluster)
    requires Inv(c) && Registered(c) && LockGrants.Waiting(c, r) && GrantComing(c, r)
    ensures Smoothly(c, d) && OnlyGrantMoved(c, d, r) && At(d, r, Held)
  {
    d := c;
    SmoothlyNowhere(c);
    assert AttemptOk(c, r);
    if d.attempts[r].phase == Phase.Enqueued {
      Registers(d, r);
      SmoothlyOn(c, d, RegisterLocal(r));
      d := Next(d, RegisterLocal(r));
      SmoothlyInv(c, d);
    }
    if !HasToken(d, r) {
      assert RegisteredAt(d, r);
      var ev := Deliver(Grant(r, d.attempts[r].owner));
      TokenArrives(d, r);
      MovedTwice(c, d, Next(d, ev), r);
      SmoothlyOn(c, d, ev);
      d := Next(d, ev);
      SmoothlyInv(c, d);
    }
    Wakes(d, r);
    MovedTwice(c, d, Next(d, Wake(r)), r);
    SmoothlyOn(c, d, Wake(r));
    d := Next(d, Wake(r));
  }

  // ---- how a free lock is taken ------------------------------------------------------------------------

  /** Nothing but r has been added. */
  ghost predicate OnlyAdded(c: Cluster, d: Cluster, r: ReqId) {
    && d.master == c.master && d.engines.Keys == c.engines.Keys
    && d.attempts.Keys == c.attempts.Keys + {r}
    && (forall q :: q in c.attempts && q != r ==> d.attempts[q] == c.attempts[q])
  }

  lemma TakesLocally(c: Cluster, m: int, r: ReqId)
    requires Inv(c) && Fresh(c, r, m) && c.master[m] == m && c.engines[m].holder == Nobody
    ensures var d := Next(c, StartLocal(r, m));
            && Enabled(c, StartLocal(r, m)) && OnlyAdded(c, d, r)
            && d.attempts[r] == Attempt(m, m, true, Held) && d.engines[m].holder == r && d.engines[m].queue == []
  {
    assert EngineOk(c, m);
  }

  lemma RequestGoesOut(c: Cluster, m: int, n: int, r: ReqId)
    requires Inv(c) && Fresh(c, r, n) && m in c.engines && c.master[n] == m && c.engines[m].holder == Nobody
    ensures var a := Next(c, StartRemote(r, n, true));
            && Enabled(c, StartRemote(r, n, true)) && OnlyAdded(c, a, r) && Request(r, n, m) in a.msgs
            && a.attempts[r] == Attempt(n, m, false, Phase.Waiting)
            && a.engines[m].holder == Nobody && a.engines[m].queue == []
  {
    assert EngineOk(c, m);
  }

  lemma RequestIsGranted(a: Cluster, m: int, n: int, r: ReqId)
    requires m in a.engines && n in a.engines && Request(r, n, m) in a.msgs
    requires r in a.attempts && a.attempts[r].owner == n
    requires a.engines[m].holder == Nobody && a.engines[m].queue == []
    ensures var d := Next(a, Deliver(Request(r, n, m)));
            && Enabled(a, Deliver(Request(r, n, m))) && d == a.(engines := d.engines, msgs := d.msgs)
            && d.engines.Keys == a.engines.Keys
            && Granted(d, r) && d.engines[m].holder == r && d.engines[m].queue == []
  {
  }

  /** The request goes out and reaches the arbiter, which sends the grant. */
  lemma AsksRemotely(c: Cluster, m: int, n: int, r: ReqId)
    requires Inv(c) && Fresh(c, r, n) && m in c.engines && c.master[n] == m && c.engines[m].holder == Nobody
    ensures Enabled(c, StartRemote(r, n, true))
    ensures var a := Next(c, StartRemote(r, n, true));
            && Enabled(a, Deliver(Request(r, n, m)))
            && var d := Next(a, Deliver(Request(r, n, m)));
               && OnlyAdded(c, d, r) && d.attempts[r] == Attempt(n, m, false, Phase.Waiting) && Granted(d, r)
               && d.engines[m].holder == r && d.engines[m].queue == []
  {
    RequestGoesOut(c, m, n, r);
    RequestIsGranted(Next(c, StartRemote(r, n, true)), m, n, r);
  }

  lemma TakesRemotely(c: Cluster, m: int, n: int, r: ReqId) returns (d: Cluster)
    requires Inv(c) && Registered(c) && Fresh(c, r, n) && m in c.engines && c.master[n] == m
    requires c.engines[m].holder == Nobody
    ensures Smoothly(c, d) && OnlyAdded(c, d, r)
    ensures d.attempts[r] == Attempt(n, m, false, Held) && d.engines[m].holder == r && d.engines[m].queue == []
  {
    AsksRemotely(c, m, n, r);
    var a := Next(c, StartRemote(r, n, true));
    var b := Next(a, Deliver(Request(r, n, m)));
    SmoothlyNowhere(c);
    SmoothlyOn(c, c, StartRemote(r, n, true));
    SmoothlyOn(c, a, Deliver(Request(r, n, m)));
    SmoothlyInv(c, b);
    d := GetsTheLock(b, r);
    SmoothlyTrans(c, b, d);
  }

  /** A free lock can be taken by any node that takes its arbiter for the master. */
  lemma TakesTheLock(c: Cluster, m: int, n: int, r: ReqId) returns (d: Cluster)
    requires Inv(c) && Registered(c) && Fresh(c, r, n) && m in c.engines && c.master[n] == m
    requires c.engines[m].holder == Nobody
    ensures Smoothly(c, d) && OnlyAdded(c, d, r)
    ensures d.attempts[r] == Attempt(n, m, n == m, Held) && d.engines[m].holder == r && d.engines[m].queue == []
  {
    if n == m {
      TakesLocally(c, m, r);
      SmoothlyNowhere(c);
      SmoothlyOn(c, c, StartLocal(r, m));
      d := Next(c, StartLocal(r, m));
    } else {
      d := TakesRemotely(c, m, n, r);
    }
  }

  // ---- how the lock is passed on -----------------------------------------------------------------------

  /** The request that has just been given the lock waits and will be told, unless it has failed. */
  ghost predicate NextUp(c: Cluster, d: Cluster, m: int) {
    && m in c.engines && m in d.engines && d.master == c.master && d.engines.Keys == c.engines.Keys
    && if c.engines[m].queue == [] then d.engines[m].holder == Nobody && d.engines[m].queue == []
       else
         var h := c.engines[m].queue[0].req;
         && d.engines[m].holder == h && h in c.attempts && h in d.attempts && d.attempts[h] == c.attempts[h]
         && (c.attempts[h].phase == Phase.Enqueued || c.attempts[h].phase == Phase.Waiting
             || c.attempts[h].phase == Failed)
         && GrantComing(d, h) && d.engines[m].queue == c.engines[m].queue[1..]
  }

  lemma PassOnNext(c: Cluster, m: int, r: ReqId)
    requires Inv(c) && m in c.engines && c.engines[m].holder == r != Nobody
    ensures NextUp(c, Put(c, m, PassOn(c.engines[m], c.engines.Keys, r)), m)
  {
    assert EngineOk(c, m);
    if c.engines[m].queue != [] {
      var h := c.engines[m].queue[0].req;
      PassOnGrants(c, m, r, h);
      assert InQueue(c.engines[m], h);
      assert AttemptOk(c, h);
    }
  }

  /** A local release passes the lock on at once. */
  lemma LocalReleasePasses(c: Cluster, m: int, r: ReqId)
    requires Inv(c) && At(c, r, Held) && c.attempts[r].local && c.attempts[r].owner == m && m in c.master
    ensures Enabled(c, LetGo(r)) && NextUp(c, Next(c, LetGo(r)), m)
    ensures forall q :: q in c.attempts && q != r ==>
              q in Next(c, LetGo(r)).attempts && Next(c, LetGo(r)).attempts[q] == c.attempts[q]
  {
    assert AttemptOk(c, r) && EngineOk(c, m);
    ReleasedKeeps(c, r);
    PassOnNext(SetPhase(c, r, Released), m, r);
  }

  /** A remote release does when its message arrives. */
  lemma RemoteReleasePasses(c: Cluster, m: int, r: ReqId)
    requires Inv(c) && m in c.engines && c.engines[m].holder == r != Nobody && Release(r, m) in c.msgs
    ensures Enabled(c, Deliver(Release(r, m))) && NextUp(c, Next(c, Deliver(Release(r, m))), m)
    ensures Next(c, Deliver(Release(r, m))).attempts == c.attempts
  {
    DroppedKeeps(c, Release(r, m));
    PassOnNext(Taken(c, Release(r, m)), m, r);
  }

  lemma RemoteReleaseSends(c: Cluster, m: int, r: ReqId)
    requires Inv(c) && At(c, r, Held) && !c.attempts[r].local && c.attempts[r].arbiter == m
    requires c.attempts[r].owner in c.master && c.master[c.attempts[r].owner] == m
    ensures Enabled(c, LetGo(r))
    ensures var d := Next(c, LetGo(r));
            && Release(r, m) in d.msgs && d.engines == c.engines && d.master == c.master
            && d.attempts == c.attempts[r := c.attempts[r].(phase := Released)]
  {
    assert AttemptOk(c, r);
  }

  lemma SmoothlyOneMaster(c: Cluster, d: Cluster, m: int)
    requires OneMaster(c, m) && Smoothly(c, d)
    ensures OneMaster(d, m)
  {
    var one := x => OneMaster(x, m);
    forall x, ev, y | one(x) && SmoothStep()(x, ev, y) ensures one(y) {
      OneMasterKeeps(x, ev, m);
    }
    Paths.Kept(SmoothStep(), one, c, d);
  }

  // ---- who has the lock next ----------------------------------------------------------------------------

  ghost predicate HeadFailed(c: Cluster, m: int)
    requires m in c.engines
  {
    var queue := c.engines[m].queue;
    queue != [] && queue[0].req in c.attempts && c.attempts[queue[0].req].phase == Failed
  }

  /** Nobody in the queue has given up. */
  ghost predicate NoneFailed(c: Cluster, m: int) {
    && m in c.engines
    && forall i :: 0 <= i < |c.engines[m].queue| ==>
         c.engines[m].queue[i].req in c.attempts ==> c.attempts[c.engines[m].queue[i].req].phase != Failed
  }

  /** The queue has got shorter at most, and no one has failed. */
  ghost predicate NoneFailsIn(c: Cluster, d: Cluster, m: int) {
    && m in c.engines && m in d.engines
    && (d.engines[m].queue == c.engines[m].queue
        || (c.engines[m].queue != [] && d.engines[m].queue == c.engines[m].queue[1..]))
    && forall q :: q in d.attempts && d.attempts[q].phase == Failed ==>
         q in c.attempts && c.attempts[q].phase == Failed
  }

  lemma NoneFailedKept(c: Cluster, d: Cluster, m: int)
    requires NoneFailed(c, m) && NoneFailsIn(c, d, m)
    ensures NoneFailed(d, m)
  {
    var before, now := c.engines[m].queue, d.engines[m].queue;
    forall i | 0 <= i < |now| && now[i].req in d.attempts ensures d.attempts[now[i].req].phase != Failed {
      assert now[i] == if now == before then before[i] else before[i + 1];
    }
  }

  /** The lock of node m is free, or its holder will be told, or is being given up to one who will. */
  ghost predicate ComesFree(c: Cluster, m: int) {
    && m in c.engines
    && var h := c.engines[m].holder;
       || h == Nobody
       || (LockGrants.Waiting(c, h) && GrantComing(c, h))
       || (h in c.attempts && c.attempts[h].phase == Released && Release(h, m) in c.msgs && !HeadFailed(c, m))
  }

  /** r is the only request that has moved, from waiting or from nothing. */
  ghost predicate OnlyAdvanced(c: Cluster, d: Cluster, r: ReqId) {
    && d.master == c.master && d.engines.Keys == c.engines.Keys
    && c.attempts.Keys <= d.attempts.Keys <= c.attempts.Keys + {r}
    && (forall q :: q in c.attempts && q != r ==> d.attempts[q] == c.attempts[q])
    && (r in c.attempts ==> LockGrants.Waiting(c, r))
    && At(d, r, Held)
  }

  lemma HolderAdvances(c: Cluster, m: int) returns (d: Cluster, r: ReqId)
    requires Inv(c) && Registered(c) && m in c.engines && LockGrants.Waiting(c, c.engines[m].holder)
    requires GrantComing(c, c.engines[m].holder)
    ensures r == c.engines[m].holder && Smoothly(c, d) && OnlyAdvanced(c, d, r) && NoneFailsIn(c, d, m)
  {
    r := c.engines[m].holder;
    d := GetsTheLock(c, r);
  }

  lemma FreeLockIsTaken(c: Cluster, m: int, unused: ReqId) returns (d: Cluster)
    requires Inv(c) && Registered(c) && OneMaster(c, m) && m in c.engines && c.engines[m].holder == Nobody
    requires unused.Uuid? && unused !in c.attempts
    ensures Smoothly(c, d) && OnlyAdvanced(c, d, unused) && d.attempts[unused].owner == m
    ensures d.engines[m].queue == []
  {
    d := TakesTheLock(c, m, m, unused);
  }

  lemma NextHolder(c: Cluster, m: int, unused: ReqId) returns (d: Cluster, r: ReqId)
    requires Inv(c) && Registered(c) && OneMaster(c, m) && ComesFree(c, m)
    requires unused.Uuid? && unused !in c.attempts
    ensures Smoothly(c, d) && OnlyAdvanced(c, d, r) && (NoneFailed(c, m) ==> NoneFailed(d, m))
    ensures !LockGrants.Waiting(c, c.engines[m].holder) && c.engines[m].queue == [] ==> d.attempts[r].owner == m
  {
    var h := c.engines[m].holder;
    assert EngineOk(c, m);
    if h == Nobody {
      d := FreeLockIsTaken(c, m, unused);
      r := unused;
    } else if LockGrants.Waiting(c, h) {
      d, r := HolderAdvances(c, m);
      if NoneFailed(c, m) {
        NoneFailedKept(c, d, m);
      }
    } else {
      var ev := Deliver(Release(h, m));
      RemoteReleasePasses(c, m, h);
      var a := Next(c, ev);
      SmoothlyNowhere(c);
      SmoothlyOn(c, c, ev);
      SmoothlyInv(c, a);
      SmoothlyOneMaster(c, a, m);
      if c.engines[m].queue == [] {
        d := FreeLockIsTaken(a, m, unused);
        r := unused;
      } else {
        d, r := HolderAdvances(a, m);
        if NoneFailed(c, m) {
          NoneFailedKept(c, a, m);
          NoneFailedKept(a, d, m);
        }
      }
      SmoothlyTrans(c, a, d);
    }
  }

  lemma FreshRequest(c: Cluster) returns (r: ReqId)
    ensures r.Uuid? && r !in c.attempts
  {
    var n := Above(c.attempts.Keys);
    r := Uuid(n);
  }

  lemma {:induction false} Above(ids: set<ReqId>) returns (n: nat)
    ensures forall k: nat :: k >= n ==> Uuid(k) !in ids
    decreases |ids|
  {
    if ids == {} {
      n := 0;
    } else {
      var id :| id in ids;
      var low := Above(ids - {id});
      n := if id.Uuid? && id.n >= low then id.n + 1 else low;
    }
  }
}
