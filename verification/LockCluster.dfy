/** The distributed lock as a whole: every node's engine, every acquire attempt and the messages in
    flight (internal/mutex/mutex.go).  One step is one critical section, one delivery, one caller
    waking up or giving up, or a node changing its mind about who the master is.

    Request IDs are fresh.  A message is delivered at most once and in any order; one that is lost is
    one that is never delivered. */
module LockCluster {
  import opened Common
  import opened LockEngine

  /** Where the caller of acquire stands. */
  datatype Phase =
    | Enqueued   // acquireLocal has queued itself but not yet registered its channel
    | Waiting
    | Held       // between a successful acquire and the call of release
    | Released
    | Failed     // error, timeout or cancelled context

  datatype Attempt = Attempt(owner: int, arbiter: int, local: bool, phase: Phase)

  datatype Cluster = Cluster(
    engines: map<int, EngineState>,
    master: map<int, int>,             // every node's own view
    attempts: map<ReqId, Attempt>,
    msgs: multiset<LockMsg>)

  datatype Event =
    | StartLocal(r: ReqId, node: int)
    | RegisterLocal(r: ReqId)
    | StartRemote(r: ReqId, node: int, sent: bool)
    | Wake(r: ReqId)
    | Timeout(r: ReqId)
    | Cancel(r: ReqId)
    | LetGo(r: ReqId)                  // the critical operation ends and calls release
    | Deliver(msg: LockMsg)
    | ChangeMaster(node: int, master: int)

  ghost predicate Init(c: Cluster) {
    && c.master.Keys == c.engines.Keys
    && c.attempts == map[]
    && c.msgs == multiset{}
    && forall n :: n in c.engines ==> c.engines[n] == IDLE
  }

  /** An attempt of a live node that stands at the given point. */
  predicate At(c: Cluster, r: ReqId, phase: Phase) {
    r in c.attempts && c.attempts[r].phase == phase && c.attempts[r].owner in c.engines
  }

  predicate Fresh(c: Cluster, r: ReqId, n: int) {
    r.Uuid? && r !in c.attempts && n in c.engines && n in c.master
  }

  predicate Enabled(c: Cluster, ev: Event) {
    match ev
    case StartLocal(r, n) => Fresh(c, r, n) && c.master[n] == n
    case RegisterLocal(r) => At(c, r, Enqueued)
    case StartRemote(r, n, _) => Fresh(c, r, n) && c.master[n] in c.engines
    case Wake(r) => At(c, r, Waiting) && r in c.engines[c.attempts[r].owner].tokens
    case Timeout(r) => At(c, r, Waiting)
    case Cancel(r) => At(c, r, Waiting) && !c.attempts[r].local
    case LetGo(r) => At(c, r, Held) && c.attempts[r].owner in c.master
    case Deliver(msg) => msg in c.msgs && msg.to in c.engines
    case ChangeMaster(n, _) => n in c.engines
  }

  /** Stores what a critical section of node n did. */
  function Put(c: Cluster, n: int, out: Outcome): Cluster {
    c.(engines := c.engines[n := out.state], msgs := c.msgs + multiset(out.sends))
  }

  function SetPhase(c: Cluster, r: ReqId, phase: Phase): Cluster
    requires r in c.attempts
  {
    c.(attempts := c.attempts[r := c.attempts[r].(phase := phase)])
  }

  function EnterLocal(c: Cluster, r: ReqId, n: int): Cluster
    requires n in c.engines
  {
    var phase := if c.engines[n].holder == Nobody then Held else Enqueued;
    c.(engines := c.engines[n := Arrive(c.engines[n], r, n)],
       attempts := c.attempts[r := Attempt(n, n, true, phase)])
  }

  function EnterRemote(c: Cluster, r: ReqId, n: int, to: int, sent: bool): Cluster
    requires n in c.engines
  {
    if sent then
      c.(engines := c.engines[n := Register(c.engines[n], r)],
         attempts := c.attempts[r := Attempt(n, to, false, Waiting)],
         msgs := c.msgs + multiset{Request(r, n, to)})
    else
      c.(attempts := c.attempts[r := Attempt(n, to, false, Failed)])
  }

  /** A caller goes on: its phase and the channels of its own engine change. */
  function Move(c: Cluster, r: ReqId, phase: Phase, e: EngineState): Cluster
    requires r in c.attempts
  {
    SetPhase(c.(engines := c.engines[c.attempts[r].owner := e]), r, phase)
  }

  function GiveUp(c: Cluster, r: ReqId, timeout: bool): Cluster
    requires r in c.attempts && c.attempts[r].owner in c.engines
  {
    var e := c.engines[c.attempts[r].owner];
    Move(c, r, Failed, if timeout && !c.attempts[r].local then Unregister(e, r) else e)
  }

  function Leave(c: Cluster, r: ReqId): Cluster
    requires r in c.attempts && c.attempts[r].owner in c.engines && c.attempts[r].owner in c.master
  {
    var n := c.attempts[r].owner;
    var done := SetPhase(c, r, Released);
    if c.attempts[r].local then Put(done, n, PassOn(c.engines[n], c.engines.Keys, r))
    else if c.master[n] in c.engines then done.(msgs := c.msgs + multiset{Release(r, c.master[n])})
    else done
  }

  /** A message that has been taken from the network reaches its node. */
  function Receive(c: Cluster, msg: LockMsg): Cluster
    requires msg.to in c.engines
  {
    var e := c.engines[msg.to];
    match msg
    case Request(r, from, to) => Put(c, to, HandleRequest(e, c.engines.Keys, r, from))
    case Grant(r, to) => c.(engines := c.engines[to := HandleGrant(e, r)])
    case Deny(_, _) => c
    case Release(r, to) => Put(c, to, PassOn(e, c.engines.Keys, r))
  }

  function Taken(c: Cluster, msg: LockMsg): Cluster {
    c.(msgs := c.msgs - multiset{msg})
  }

  function Next(c: Cluster, ev: Event): Cluster
    requires Enabled(c, ev)
  {
    match ev
    case StartLocal(r, n) => EnterLocal(c, r, n)
    case RegisterLocal(r) => Move(c, r, Waiting, Register(c.engines[c.attempts[r].owner], r))
    case StartRemote(r, n, sent) => EnterRemote(c, r, n, c.master[n], sent)
    case Wake(r) => Move(c, r, Held, TakeToken(c.engines[c.attempts[r].owner], r))
    case Timeout(r) => GiveUp(c, r, true)
    case Cancel(r) => GiveUp(c, r, false)
    case LetGo(r) => Leave(c, r)
    case Deliver(msg) => Receive(Taken(c, msg), msg)
    case ChangeMaster(n, m) => c.(master := c.master[n := m])
  }

  predicate Legal(c: Cluster, evs: seq<Event>)
    decreases |evs|
  {
    evs == [] || (Enabled(c, evs[0]) && Legal(Next(c, evs[0]), evs[1..]))
  }

  function Run(c: Cluster, evs: seq<Event>): Cluster
    requires Legal(c, evs)
    decreases |evs|
  {
    if evs == [] then c else Run(Next(c, evs[0]), evs[1..])
  }

  // ---- the invariant -------------------------------------------------------------------------

  predicate InQueue(e: EngineState, r: ReqId) {
    exists i :: 0 <= i < |e.queue| && e.queue[i].req == r
  }

  /** Holder, queue, channels and tokens of node n speak of attempts that belong there. */
  ghost predicate EngineOk(c: Cluster, n: int)
    requires n in c.engines
  {
    var e := c.engines[n];
    && (e.holder == Nobody ==> e.queue == [])
    && (e.holder != Nobody ==> e.holder in c.attempts && c.attempts[e.holder].arbiter == n)
    && (forall i :: 0 <= i < |e.queue| ==>
          && e.queue[i].req in c.attempts && e.queue[i].req.Uuid? && e.queue[i].req != e.holder
          && c.attempts[e.queue[i].req].arbiter == n
          && c.attempts[e.queue[i].req].owner == e.queue[i].from)
    && (forall i, j :: 0 <= i < j < |e.queue| ==> e.queue[i].req != e.queue[j].req)
    && (forall r :: r in e.grants ==> r in c.attempts && c.attempts[r].owner == n && c.attempts[r].phase != Enqueued)
    && (forall r :: r in e.tokens ==> r in c.attempts && c.attempts[r].owner == n && e.tokens[r] == 1)
  }

  ghost predicate MsgOk(c: Cluster, m: LockMsg)
    requires m in c.msgs
  {
    && m.to in c.engines
    && m.req in c.attempts
    && (match m
        case Request(r, from, to) =>
          from == c.attempts[r].owner && to == c.attempts[r].arbiter && !c.attempts[r].local && c.msgs[m] == 1
        case Grant(r, to) => to == c.attempts[r].owner && c.msgs[m] == 1
        case Deny(_, _) => true
        case Release(r, _) => c.attempts[r].phase == Released)
  }

  ghost predicate Granted(c: Cluster, r: ReqId)
    requires r in c.attempts
  {
    Grant(r, c.attempts[r].owner) in c.msgs
  }

  ghost predicate HasToken(c: Cluster, r: ReqId)
    requires r in c.attempts && c.attempts[r].owner in c.engines
  {
    r in c.engines[c.attempts[r].owner].tokens
  }

  ghost predicate Waits(c: Cluster, r: ReqId)
    requires r in c.attempts
  {
    Request(r, c.attempts[r].owner, c.attempts[r].arbiter) in c.msgs
  }

  /** A request is on its way, queued, or has had its turn; its one grant is in flight, in its channel or
      taken; and while that grant exists the arbiter keeps the lock for it. */
  ghost predicate AttemptOk(c: Cluster, r: ReqId)
    requires r in c.attempts
  {
    var a := c.attempts[r];
    && r.Uuid?
    && a.owner in c.engines && a.arbiter in c.engines
    && (a.local ==> a.owner == a.arbiter)
    && (a.phase == Enqueued ==> a.local)
    && var e := c.engines[a.arbiter];
    && (Granted(c, r) ==> e.holder == r && !HasToken(c, r) && a.phase != Held && a.phase != Released)
    && (HasToken(c, r) ==> e.holder == r && (a.phase == Waiting || a.phase == Failed))
    && (a.phase == Held ==> e.holder == r)
    && (Waits(c, r) ==>
          !InQueue(e, r) && e.holder != r && (a.phase == Waiting || a.phase == Failed))
    && (InQueue(e, r) ==> a.phase != Released)
  }

  ghost predicate EnginesOk(c: Cluster) {
    forall n {:trigger EngineOk(c, n)} :: n in c.engines ==> EngineOk(c, n)
  }

  ghost predicate MsgsOk(c: Cluster) {
    forall m {:trigger MsgOk(c, m)} :: m in c.msgs ==> MsgOk(c, m)
  }

  ghost predicate AttemptsOk(c: Cluster) {
    forall r {:trigger AttemptOk(c, r)} :: r in c.attempts ==> AttemptOk(c, r)
  }

  ghost predicate Inv(c: Cluster) {
    && c.master.Keys >= c.engines.Keys
    && EnginesOk(c)
    && MsgsOk(c)
    && AttemptsOk(c)
  }

  // ---- what a step does not touch stays in order ----------------------------------------------

  /** No attempt changes its owner or arbiter, becomes unregistered again or takes a release back. */
  ghost predicate KeptAt(c: Cluster, d: Cluster, r: ReqId)
    requires r in c.attempts
  {
    && r in d.attempts
    && d.attempts[r].owner == c.attempts[r].owner
    && d.attempts[r].arbiter == c.attempts[r].arbiter
    && d.attempts[r].local == c.attempts[r].local
    && (d.attempts[r].phase == Enqueued ==> c.attempts[r].phase == Enqueued)
    && (c.attempts[r].phase == Released ==> d.attempts[r].phase == Released)
  }

  ghost predicate Kept(c: Cluster, d: Cluster) {
    && d.engines.Keys == c.engines.Keys
    && d.master.Keys >= c.master.Keys
    && forall r {:trigger KeptAt(c, d, r)} :: r in c.attempts ==> KeptAt(c, d, r)
  }

  lemma EngineFrame(c: Cluster, d: Cluster, k: int)
    requires Kept(c, d) && k in c.engines && d.engines[k] == c.engines[k] && EngineOk(c, k)
    ensures EngineOk(d, k)
  {
    var e := c.engines[k];
    assert e.holder != Nobody ==> KeptAt(c, d, e.holder);
    forall i | 0 <= i < |e.queue| ensures KeptAt(c, d, e.queue[i].req) {
    }
    forall r | r in e.grants ensures KeptAt(c, d, r) {
    }
    forall r | r in e.tokens ensures KeptAt(c, d, r) {
    }
  }

  lemma EnginesFrame(c: Cluster, d: Cluster, n: int)
    requires EnginesOk(c) && Kept(c, d)
    requires forall k :: k in c.engines && k != n ==> d.engines[k] == c.engines[k]
    requires n in d.engines ==> EngineOk(d, n)
    ensures EnginesOk(d)
  {
    forall k | k in d.engines ensures EngineOk(d, k) {
      assert EngineOk(c, k);
      if k != n {
        EngineFrame(c, d, k);
      }
    }
  }

  lemma MsgsFrame(c: Cluster, d: Cluster, sent: multiset<LockMsg>)
    requires MsgsOk(c) && Kept(c, d) && d.msgs <= c.msgs + sent
    requires forall m :: m in sent && m in d.msgs ==> MsgOk(d, m)
    ensures MsgsOk(d)
  {
    forall m | m in d.msgs ensures MsgOk(d, m) {
      if m !in sent {
        assert MsgOk(c, m);
        assert KeptAt(c, d, m.req);
      }
    }
  }

  /** Nothing that concerns q is different in d. */
  ghost predicate SameFor(c: EngineState, d: EngineState, q: ReqId) {
    && (InQueue(d, q) ==> InQueue(c, q))
    && (q in d.tokens ==> q in c.tokens)
    && (d.holder == q <==> c.holder == q)
  }

  lemma AttemptsFrame(c: Cluster, d: Cluster, n: int, touched: set<ReqId>)
    requires AttemptsOk(c) && d.engines.Keys == c.engines.Keys
    requires forall k :: k in c.engines && k != n ==> d.engines[k] == c.engines[k]
    requires n in c.engines ==> forall q {:trigger SameFor(c.engines[n], d.engines[n], q)} ::
               q in c.attempts && q !in touched ==> SameFor(c.engines[n], d.engines[n], q)
    requires d.attempts.Keys <= c.attempts.Keys + touched
    requires forall q :: q in d.attempts && q !in touched ==> d.attempts[q] == c.attempts[q]
    requires forall m :: m in d.msgs && m.req !in touched ==> m in c.msgs
    requires forall q {:trigger AttemptOk(d, q)} :: q in touched && q in d.attempts ==> AttemptOk(d, q)
    ensures AttemptsOk(d)
  {
    forall q | q in d.attempts ensures AttemptOk(d, q) {
      if q !in touched {
        assert AttemptOk(c, q);
        assert n in c.engines ==> SameFor(c.engines[n], d.engines[n], q);
      }
    }
  }

  lemma ArrivedQueue(e: EngineState, r: ReqId, from: int, q: ReqId)
    ensures InQueue(Arrive(e, r, from), q) <==> InQueue(e, q) || (e.holder != Nobody && q == r)
  {
    var d := Arrive(e, r, from);
    if InQueue(e, q) {
      var i :| 0 <= i < |e.queue| && e.queue[i].req == q;
      assert d.queue[i].req == q;
    }
    if e.holder != Nobody {
      assert d.queue[|e.queue|].req == r;
    }
  }

  /** A request nobody has heard of is in no message, no queue and no channel. */
  lemma FreshIsNowhere(c: Cluster, r: ReqId)
    requires Inv(c) && r !in c.attempts && r.Uuid?
    ensures forall m :: m in c.msgs ==> m.req != r
    ensures forall n :: n in c.engines ==>
              && !InQueue(c.engines[n], r) && r !in c.engines[n].tokens && r !in c.engines[n].grants
              && c.engines[n].holder != r
  {
    forall m | m in c.msgs ensures m.req != r {
      assert MsgOk(c, m);
    }
    forall n | n in c.engines
      ensures !InQueue(c.engines[n], r) && r !in c.engines[n].tokens && r !in c.engines[n].grants
      ensures c.engines[n].holder != r
    {
      assert EngineOk(c, n);
    }
  }

  lemma StartLocalOk(c: Cluster, r: ReqId, n: int)
    requires Inv(c) && Fresh(c, r, n)
    ensures var d := EnterLocal(c, r, n);
            && AttemptOk(d, r) && EngineOk(d, n)
            && forall q {:trigger SameFor(c.engines[n], d.engines[n], q)} ::
                 q in c.attempts && q != r ==> SameFor(c.engines[n], d.engines[n], q)
  {
    var d := EnterLocal(c, r, n);
    FreshIsNowhere(c, r);
    assert EngineOk(c, n);
    ArrivedQueue(c.engines[n], r, n, r);
    forall q | q in c.attempts && q != r ensures SameFor(c.engines[n], d.engines[n], q) {
      assert AttemptOk(c, q);
      ArrivedQueue(c.engines[n], r, n, q);
    }
  }

  lemma StartLocalKeeps(c: Cluster, r: ReqId, n: int)
    requires Inv(c) && Fresh(c, r, n)
    ensures Inv(EnterLocal(c, r, n))
  {
    var d := EnterLocal(c, r, n);
    StartLocalOk(c, r, n);
    AttemptsFrame(c, d, n, {r});
    MsgsFrame(c, d, multiset{});
    EnginesFrame(c, d, n);
  }

  lemma RegisterLocalKeeps(c: Cluster, r: ReqId)
    requires Inv(c) && At(c, r, Enqueued)
    ensures Inv(Move(c, r, Waiting, Register(c.engines[c.attempts[r].owner], r)))
  {
    var n := c.attempts[r].owner;
    var d := Move(c, r, Waiting, Register(c.engines[n], r));
    assert AttemptOk(c, r);
    assert EngineOk(c, n);
    AttemptsFrame(c, d, n, {r});
    MsgsFrame(c, d, multiset{});
    EnginesFrame(c, d, n);
  }

  lemma StartRemoteOk(c: Cluster, r: ReqId, n: int, to: int, sent: bool)
    requires Inv(c) && Fresh(c, r, n) && to in c.engines
    ensures var d := EnterRemote(c, r, n, to, sent);
            && AttemptOk(d, r) && EngineOk(d, n)
            && (sent ==> MsgOk(d, Request(r, n, to)))
  {
    FreshIsNowhere(c, r);
    assert EngineOk(c, n);
  }

  lemma StartRemoteKeeps(c: Cluster, r: ReqId, n: int, to: int, sent: bool)
    requires Inv(c) && Fresh(c, r, n) && to in c.engines
    ensures Inv(EnterRemote(c, r, n, to, sent))
  {
    var d := EnterRemote(c, r, n, to, sent);
    StartRemoteOk(c, r, n, to, sent);
    forall q | q in c.attempts ensures SameFor(c.engines[n], d.engines[n], q) {
    }
    AttemptsFrame(c, d, n, {r});
    MsgsFrame(c, d, if sent then multiset{Request(r, n, to)} else multiset{});
    EnginesFrame(c, d, n);
  }

  lemma WokenOk(c: Cluster, r: ReqId)
    requires Inv(c) && At(c, r, Waiting) && r in c.engines[c.attempts[r].owner].tokens
    ensures var n := c.attempts[r].owner;
            var d := Move(c, r, Held, TakeToken(c.engines[n], r));
            r in d.attempts && AttemptOk(d, r) && n in d.engines && EngineOk(d, n)
  {
    var n := c.attempts[r].owner;
    assert AttemptOk(c, r);
    assert EngineOk(c, n);
    assert EngineOk(c, c.attempts[r].arbiter);
  }

  lemma WakeKeeps(c: Cluster, r: ReqId)
    requires Inv(c) && At(c, r, Waiting) && r in c.engines[c.attempts[r].owner].tokens
    ensures Inv(Move(c, r, Held, TakeToken(c.engines[c.attempts[r].owner], r)))
  {
    var n := c.attempts[r].owner;
    var d := Move(c, r, Held, TakeToken(c.engines[n], r));
    WokenOk(c, r);
    AttemptsFrame(c, d, n, {r});
    MsgsFrame(c, d, multiset{});
    EnginesFrame(c, d, n);
  }

  lemma GiveUpKeeps(c: Cluster, r: ReqId, timeout: bool)
    requires Inv(c) && At(c, r, Waiting)
    ensures Inv(GiveUp(c, r, timeout))
  {
    var n := c.attempts[r].owner;
    var d := GiveUp(c, r, timeout);
    assert AttemptOk(c, r);
    assert EngineOk(c, n);
    AttemptsFrame(c, d, n, {r});
    MsgsFrame(c, d, multiset{});
    EnginesFrame(c, d, n);
  }

  lemma ChangeMasterKeeps(c: Cluster, n: int, m: int)
    requires Inv(c) && n in c.engines
    ensures Inv(c.(master := c.master[n := m]))
  {
    var d := c.(master := c.master[n := m]);
    assert EngineOk(c, n);
    AttemptsFrame(c, d, n, {});
    MsgsFrame(c, d, multiset{});
    EngineFrame(c, d, n);
    EnginesFrame(c, d, n);
  }

  lemma HeadLeaves(e: EngineState, d: EngineState, q: ReqId)
    requires e.queue != [] && d.queue == e.queue[1..]
    requires forall i, j :: 0 <= i < j < |e.queue| ==> e.queue[i].req != e.queue[j].req
    ensures InQueue(d, q) <==> InQueue(e, q) && q != e.queue[0].req
  {
    if InQueue(e, q) && q != e.queue[0].req {
      var i :| 0 <= i < |e.queue| && e.queue[i].req == q;
      assert d.queue[i - 1].req == q;
    }
    if InQueue(d, q) {
      var i :| 0 <= i < |d.queue| && d.queue[i].req == q;
      assert e.queue[i + 1].req == q;
    }
  }

  lemma FreedKeeps(c: Cluster, n: int, r: ReqId)
    requires Inv(c) && n in c.engines && c.engines[n].holder == r && c.engines[n].queue == []
    requires r in c.attempts && c.attempts[r].phase == Released
    ensures Inv(c.(engines := c.engines[n := c.engines[n].(holder := Nobody)]))
  {
    var d := c.(engines := c.engines[n := c.engines[n].(holder := Nobody)]);
    assert AttemptOk(c, r);
    assert EngineOk(c, n);
    forall q | q in c.attempts && q != r ensures SameFor(c.engines[n], d.engines[n], q) {
      assert AttemptOk(c, q);
    }
    AttemptsFrame(c, d, n, {r});
    MsgsFrame(c, d, multiset{});
    EnginesFrame(c, d, n);
  }

  /** The head of the queue takes over and gets its only grant. */
  lemma SuccessorOk(c: Cluster, n: int, r: ReqId)
    requires Inv(c) && n in c.engines && c.engines[n].holder == r && c.engines[n].queue != []
    requires r in c.attempts && c.attempts[r].phase == Released
    ensures var d := Put(c, n, PassOn(c.engines[n], c.engines.Keys, r));
            var next := c.engines[n].queue[0].req;
            && next in d.attempts && AttemptOk(d, next) && r in d.attempts && AttemptOk(d, r)
  {
    var e := c.engines[n];
    var out := PassOn(e, c.engines.Keys, r);
    var next := e.queue[0];
    assert EngineOk(c, n);
    assert InQueue(e, next.req);
    assert AttemptOk(c, next.req);
    assert AttemptOk(c, r);
    HeadLeaves(e, out.state, next.req);
    HeadLeaves(e, out.state, r);
  }

  lemma SuccessionAt(c: Cluster, n: int, r: ReqId)
    requires Inv(c) && n in c.engines && c.engines[n].holder == r && c.engines[n].queue != []
    ensures var d := Put(c, n, PassOn(c.engines[n], c.engines.Keys, r));
            var next := c.engines[n].queue[0].req;
            && EngineOk(d, n)
            && forall q {:trigger SameFor(c.engines[n], d.engines[n], q)} ::
                 q in c.attempts && q !in {r, next} ==> SameFor(c.engines[n], d.engines[n], q)
  {
    var e := c.engines[n];
    var out := PassOn(e, c.engines.Keys, r);
    var next := e.queue[0];
    assert EngineOk(c, n);
    assert InQueue(e, next.req);
    assert AttemptOk(c, next.req);
    forall q | q in c.attempts && q !in {r, next.req} ensures SameFor(e, out.state, q) {
      HeadLeaves(e, out.state, q);
    }
  }

  lemma SuccessionSends(c: Cluster, n: int, r: ReqId)
    requires Inv(c) && n in c.engines && c.engines[n].holder == r && c.engines[n].queue != []
    ensures var out := PassOn(c.engines[n], c.engines.Keys, r);
            var d := Put(c, n, out);
            && d.engines.Keys == c.engines.Keys
            && forall m :: m in out.sends ==> m.req == c.engines[n].queue[0].req && MsgOk(d, m)
  {
    var next := c.engines[n].queue[0];
    assert EngineOk(c, n);
    assert InQueue(c.engines[n], next.req);
    assert AttemptOk(c, next.req);
  }

  lemma SucceededKeeps(c: Cluster, n: int, r: ReqId)
    requires Inv(c) && n in c.engines && c.engines[n].holder == r && c.engines[n].queue != []
    requires r in c.attempts && c.attempts[r].phase == Released
    ensures Inv(Put(c, n, PassOn(c.engines[n], c.engines.Keys, r)))
  {
    var out := PassOn(c.engines[n], c.engines.Keys, r);
    var d := Put(c, n, out);
    var next := c.engines[n].queue[0];
    SuccessorOk(c, n, r);
    SuccessionAt(c, n, r);
    SuccessionSends(c, n, r);
    AttemptsFrame(c, d, n, {r, next.req});
    MsgsFrame(c, d, multiset(out.sends));
    EnginesFrame(c, d, n);
  }

  /** A holder with no grant left gives the lock up: at most one queued request gains a grant. */
  lemma PassOnKeeps(c: Cluster, n: int, r: ReqId)
    requires Inv(c) && n in c.engines
    requires r in c.attempts && c.attempts[r].phase == Released
    ensures Inv(Put(c, n, PassOn(c.engines[n], c.engines.Keys, r)))
  {
    var d := Put(c, n, PassOn(c.engines[n], c.engines.Keys, r));
    if c.engines[n].holder != r {
      assert d.engines == c.engines;
      assert d == c;
    } else if c.engines[n].queue == [] {
      assert d.msgs == c.msgs;
      FreedKeeps(c, n, r);
    } else {
      SucceededKeeps(c, n, r);
    }
  }

  lemma ReleasedKeeps(c: Cluster, r: ReqId)
    requires Inv(c) && r in c.attempts && c.attempts[r].phase == Held
    ensures Inv(SetPhase(c, r, Released))
  {
    var d := SetPhase(c, r, Released);
    var n := c.attempts[r].owner;
    assert AttemptOk(c, r);
    assert EngineOk(c, n);
    assert EngineOk(c, c.attempts[r].arbiter);
    AttemptsFrame(c, d, n, {r});
    MsgsFrame(c, d, multiset{});
    EngineFrame(c, d, n);
    EnginesFrame(c, d, n);
  }

  lemma DroppedKeeps(c: Cluster, m: LockMsg)
    requires Inv(c) && m in c.msgs && m.to in c.engines
    ensures Inv(Taken(c, m))
  {
    var d := Taken(c, m);
    AttemptsFrame(c, d, m.to, {});
    MsgsFrame(c, d, multiset{});
    assert EngineOk(c, m.to);
    EngineFrame(c, d, m.to);
    EnginesFrame(c, d, m.to);
  }

  /** Neither in flight nor anywhere at its arbiter. */
  ghost predicate Nowhere(c: Cluster, r: ReqId)
    requires r in c.attempts && AttemptOk(c, r)
  {
    var a := c.attempts[r];
    && !Waits(c, r) && !Granted(c, r) && !HasToken(c, r) && (a.phase == Waiting || a.phase == Failed)
    && !InQueue(c.engines[a.arbiter], r) && c.engines[a.arbiter].holder != r
  }

  lemma ArrivedOk(c: Cluster, r: ReqId)
    requires Inv(c) && r in c.attempts && AttemptOk(c, r) && Nowhere(c, r)
    ensures var a := c.attempts[r];
            var out := HandleRequest(c.engines[a.arbiter], c.engines.Keys, r, a.owner);
            var d := Put(c, a.arbiter, out);
            && AttemptOk(d, r) && EngineOk(d, a.arbiter)
            && forall m :: m in out.sends ==> m.req == r && MsgOk(d, m)
  {
    var a := c.attempts[r];
    assert EngineOk(c, a.arbiter);
    ArrivedQueue(c.engines[a.arbiter], r, a.owner, r);
    forall i | 0 <= i < |c.engines[a.arbiter].queue| ensures c.engines[a.arbiter].queue[i].req != r {
      assert InQueue(c.engines[a.arbiter], c.engines[a.arbiter].queue[i].req);
    }
  }

  lemma ArrivedSame(c: Cluster, r: ReqId, q: ReqId)
    requires Inv(c) && r in c.attempts && q in c.attempts && q != r
    ensures var a := c.attempts[r];
            a.arbiter in c.engines && SameFor(c.engines[a.arbiter], Arrive(c.engines[a.arbiter], r, a.owner), q)
  {
    assert AttemptOk(c, r) && AttemptOk(c, q);
    ArrivedQueue(c.engines[c.attempts[r].arbiter], r, c.attempts[r].owner, q);
  }

  /** A request that is neither in flight nor anywhere at its arbiter reaches it. */
  lemma ArrivedKeeps(c: Cluster, r: ReqId)
    requires Inv(c) && r in c.attempts && AttemptOk(c, r) && Nowhere(c, r)
    ensures var a := c.attempts[r];
            Inv(Put(c, a.arbiter, HandleRequest(c.engines[a.arbiter], c.engines.Keys, r, a.owner)))
  {
    var a := c.attempts[r];
    var n := a.arbiter;
    var out := HandleRequest(c.engines[n], c.engines.Keys, r, a.owner);
    var d := Put(c, n, out);
    ArrivedOk(c, r);
    forall q | q in c.attempts && q != r ensures SameFor(c.engines[n], d.engines[n], q) {
      ArrivedSame(c, r, q);
    }
    AttemptsFrame(c, d, n, {r});
    MsgsFrame(c, d, multiset(out.sends));
    EnginesFrame(c, d, n);
  }

  lemma DeliverRequestKeeps(c: Cluster, m: LockMsg)
    requires Inv(c) && m.Request? && m in c.msgs && m.to in c.engines
    ensures Inv(Receive(Taken(c, m), m))
  {
    DroppedKeeps(c, m);
    assert MsgOk(c, m);
    assert AttemptOk(c, m.req);
    assert AttemptOk(Taken(c, m), m.req);
    ArrivedKeeps(Taken(c, m), m.req);
  }

  lemma GrantReceivedOk(c: Cluster, m: LockMsg)
    requires Inv(c) && m.Grant? && m in c.msgs && m.to in c.engines
    ensures var d := Receive(Taken(c, m), m);
            m.req in d.attempts && AttemptOk(d, m.req) && EngineOk(d, m.to)
  {
    assert MsgOk(c, m);
    assert AttemptOk(c, m.req);
    assert EngineOk(c, m.to);
  }

  lemma DeliverGrantKeeps(c: Cluster, m: LockMsg)
    requires Inv(c) && m.Grant? && m in c.msgs && m.to in c.engines
    ensures Inv(Receive(Taken(c, m), m))
  {
    var d := c.(msgs := c.msgs - multiset{m}, engines := c.engines[m.to := HandleGrant(c.engines[m.to], m.req)]);
    GrantReceivedOk(c, m);
    assert d == Receive(Taken(c, m), m);
    forall q | q in c.attempts && q != m.req ensures SameFor(c.engines[m.to], d.engines[m.to], q) {
    }
    AttemptsFrame(c, d, m.to, {m.req});
    MsgsFrame(c, d, multiset{});
    EnginesFrame(c, d, m.to);
  }

  lemma LetGoKeeps(c: Cluster, r: ReqId)
    requires Inv(c) && At(c, r, Held)
    ensures Inv(Leave(c, r))
  {
    var done := SetPhase(c, r, Released);
    var n := c.attempts[r].owner;
    ReleasedKeeps(c, r);
    if c.attempts[r].local {
      PassOnKeeps(done, n, r);
    } else if c.master[n] in c.engines {
      var m := Release(r, c.master[n]);
      var d := done.(msgs := c.msgs + multiset{m});
      assert AttemptOk(done, r);
      AttemptsFrame(done, d, n, {r});
      MsgsFrame(done, d, multiset{m});
      assert EngineOk(done, n);
      EngineFrame(done, d, n);
      EnginesFrame(done, d, n);
    }
  }

  lemma StepKeeps(c: Cluster, ev: Event)
    requires Inv(c) && Enabled(c, ev)
    ensures Inv(Next(c, ev))
  {
    match ev
    case StartLocal(r, n) => StartLocalKeeps(c, r, n);
    case RegisterLocal(r) => RegisterLocalKeeps(c, r);
    case StartRemote(r, n, sent) => StartRemoteKeeps(c, r, n, c.master[n], sent);
    case Wake(r) => WakeKeeps(c, r);
    case Timeout(r) => GiveUpKeeps(c, r, true);
    case Cancel(r) => GiveUpKeeps(c, r, false);
    case LetGo(r) => LetGoKeeps(c, r);
    case Deliver(m) =>
      match m {
        case Request(_, _, _) => DeliverRequestKeeps(c, m);
        case Grant(_, _) => DeliverGrantKeeps(c, m);
        case Deny(_, _) => DroppedKeeps(c, m);
        case Release(r, to) =>
          assert MsgOk(c, m);
          DroppedKeeps(c, m);
          PassOnKeeps(Taken(c, m), to, r);
      }
    case ChangeMaster(n, m) => ChangeMasterKeeps(c, n, m);
  }

  // ---- what follows for every run --------------------------------------------------------------

  lemma {:induction false} InvAlways(c: Cluster, evs: seq<Event>)
    requires Inv(c) && Legal(c, evs)
    ensures Inv(Run(c, evs))
    decreases |evs|
  {
    if evs != [] {
      StepKeeps(c, evs[0]);
      InvAlways(Next(c, evs[0]), evs[1..]);
    }
  }

  /** However requests, timeouts, deliveries and master changes interleave, at most one request that an
      arbiter has granted is between a successful acquire and its release, and the arbiter knows it. */
  lemma MutualExclusionPerArbiter(start: Cluster, evs: seq<Event>, r1: ReqId, r2: ReqId)
    requires Init(start) && Legal(start, evs)
    requires var c := Run(start, evs);
             && r1 in c.attempts && c.attempts[r1].phase == Held
             && r2 in c.attempts && c.attempts[r2].phase == Held
             && c.attempts[r1].arbiter == c.attempts[r2].arbiter
    ensures r1 == r2
    ensures var c := Run(start, evs); var a := c.attempts[r1].arbiter; a in c.engines && c.engines[a].holder == r1
  {
    InvAlways(start, evs);
    var c := Run(start, evs);
    assert AttemptOk(c, r1);
    assert AttemptOk(c, r2);
  }

  // ---- an unchanging master ------------------------------------------------------------------

  /** Everybody takes m for the master, and always has. */
  ghost predicate OneMaster(c: Cluster, m: int) {
    && (forall n :: n in c.master ==> c.master[n] == m)
    && (forall r :: r in c.attempts ==> c.attempts[r].arbiter == m)
  }

  ghost predicate Steady(evs: seq<Event>) {
    forall i :: 0 <= i < |evs| ==> !evs[i].ChangeMaster?
  }

  lemma OneMasterKeeps(c: Cluster, ev: Event, m: int)
    requires OneMaster(c, m) && Enabled(c, ev) && !ev.ChangeMaster?
    ensures OneMaster(Next(c, ev), m)
  {
    MasterStays(c, ev);
    forall r | r in Next(c, ev).attempts ensures Next(c, ev).attempts[r].arbiter == m {
      ArbiterStays(c, ev, r);
    }
  }

  lemma MasterStays(c: Cluster, ev: Event)
    requires Enabled(c, ev) && !ev.ChangeMaster?
    ensures Next(c, ev).master == c.master
  {
    match ev
    case LetGo(r) => LeaveKeepsMaster(c, r);
    case Deliver(m) => ReceiveKeepsMaster(Taken(c, m), m);
    case _ =>
  }

  lemma LeaveKeepsMaster(c: Cluster, r: ReqId)
    requires r in c.attempts && c.attempts[r].owner in c.engines && c.attempts[r].owner in c.master
    ensures Leave(c, r).master == c.master
  {
  }

  lemma ReceiveKeepsMaster(c: Cluster, m: LockMsg)
    requires m.to in c.engines
    ensures Receive(c, m).master == c.master
  {
  }

  /** An attempt never changes its arbiter; a new one gets the master that its node knows. */
  lemma ArbiterStays(c: Cluster, ev: Event, r: ReqId)
    requires Enabled(c, ev) && r in Next(c, ev).attempts
    ensures var a := Next(c, ev).attempts[r].arbiter;
            if r in c.attempts then a == c.attempts[r].arbiter
            else (ev.StartLocal? || ev.StartRemote?) && ev.node in c.master && a == c.master[ev.node]
  {
  }

  lemma {:induction false} OneMasterAlways(c: Cluster, evs: seq<Event>, m: int)
    requires OneMaster(c, m) && Legal(c, evs) && Steady(evs)
    ensures OneMaster(Run(c, evs), m)
    decreases |evs|
  {
    if evs != [] {
      OneMasterKeeps(c, evs[0], m);
      OneMasterAlways(Next(c, evs[0]), evs[1..], m);
    }
  }

  lemma AtMostOneHeld(c: Cluster, m: int, r1: ReqId, r2: ReqId)
    requires Inv(c) && OneMaster(c, m)
    requires r1 in c.attempts && c.attempts[r1].phase == Held
    requires r2 in c.attempts && c.attempts[r2].phase == Held
    ensures r1 == r2
  {
    assert AttemptOk(c, r1);
    assert AttemptOk(c, r2);
  }

  /** While the master does not change, at most one request in the whole cluster holds the lock. */
  lemma MutualExclusion(start: Cluster, evs: seq<Event>, m: int, r1: ReqId, r2: ReqId)
    requires Init(start) && (forall n :: n in start.master ==> start.master[n] == m)
    requires Legal(start, evs) && Steady(evs)
    requires var c := Run(start, evs);
             && r1 in c.attempts && c.attempts[r1].phase == Held
             && r2 in c.attempts && c.attempts[r2].phase == Held
    ensures r1 == r2
  {
    InvAlways(start, evs);
    OneMasterAlways(start, evs, m);
    AtMostOneHeld(Run(start, evs), m, r1, r2);
  }

  // ---- channels never block, and a lost holder is never replaced ------------------------------

  ghost predicate HoldsItsArbiter(c: Cluster, q: ReqId) {
    q in c.attempts && c.attempts[q].arbiter in c.engines && c.engines[c.attempts[q].arbiter].holder == q
  }

  lemma TokenIsHolders(c: Cluster, n: int, q: ReqId)
    requires Inv(c) && n in c.engines && q in c.engines[n].tokens
    ensures HoldsItsArbiter(c, q)
  {
    assert EngineOk(c, n);
    assert AttemptOk(c, q);
    assert HasToken(c, q);
  }

  /** A grant channel has room for one token.  A release, local or by message, puts one into the channel of
      the head of the queue, a LOCK_GRANT into that of its request; both find it empty at every moment. */
  lemma GrantNeverBlocks(start: Cluster, evs: seq<Event>)
    requires Init(start) && Legal(start, evs)
    ensures var c := Run(start, evs);
            && (forall n, i :: n in c.engines && 0 <= i < |c.engines[n].queue| ==>
                  c.engines[n].queue[i].req !in c.engines[n].tokens)
            && (forall msg :: msg in c.msgs && msg.Grant? && msg.to in c.engines ==>
                  msg.req !in c.engines[msg.to].tokens)
  {
    InvAlways(start, evs);
    var c := Run(start, evs);
    forall n, i | n in c.engines && 0 <= i < |c.engines[n].queue|
      ensures c.engines[n].queue[i].req !in c.engines[n].tokens
    {
      assert EngineOk(c, n);
      forall q | q in c.engines[n].tokens ensures HoldsItsArbiter(c, q) {
        TokenIsHolders(c, n, q);
      }
    }
    forall msg | msg in c.msgs && msg.Grant? && msg.to in c.engines ensures msg.req !in c.engines[msg.to].tokens {
      assert MsgOk(c, msg);
      assert AttemptOk(c, msg.req);
    }
  }

  // ---- FIFO ownership in every run -------------------------------------------------------------

  /** What a step of the cluster is to the arbiter of node n. */
  function EventsAt(c: Cluster, ev: Event, n: int): seq<ArbiterEvent>
    requires Enabled(c, ev)
  {
    match ev
    case StartLocal(r, m) => if m == n then [Arrives(r, m)] else []
    case LetGo(r) => if c.attempts[r].local && c.attempts[r].owner == n then [Releases(r)] else []
    case Deliver(Request(r, from, to)) => if to == n then [Arrives(r, from)] else []
    case Deliver(Release(r, to)) => if to == n then [Releases(r)] else []
    case _ => []
  }

  function TraceAt(c: Cluster, evs: seq<Event>, n: int): seq<ArbiterEvent>
    requires Legal(c, evs)
    decreases |evs|
  {
    if evs == [] then [] else EventsAt(c, evs[0], n) + TraceAt(Next(c, evs[0]), evs[1..], n)
  }

  ghost predicate SameOrder(a: EngineState, b: EngineState) {
    a.holder == b.holder && a.queue == b.queue
  }

  /** The state of an arbiter that stands in order like e, after at most one event. */
  ghost predicate Follows(d: EngineState, e: EngineState, known: set<int>, es: seq<ArbiterEvent>) {
    && |es| <= 1
    && forall x :: SameOrder(x, e) ==> SameOrder(if es == [] then x else Arbitrate(x, known, es[0]), d)
  }

  lemma EventFollows(e: EngineState, known: set<int>, ev: ArbiterEvent)
    ensures Follows(Arbitrate(e, known, ev), e, known, [ev])
  {
  }

  lemma NothingFollows(d: EngineState, e: EngineState, known: set<int>)
    requires SameOrder(d, e)
    ensures Follows(d, e, known, [])
  {
  }

  /** The engine of node n after a message has reached its node. */
  function EngineAfter(c: Cluster, m: LockMsg, n: int): EngineState
    requires n in c.engines
  {
    var e := c.engines[n];
    if m.to != n then e
    else match m
         case Request(r, from, _) => Arrive(e, r, from)
         case Grant(r, _) => HandleGrant(e, r)
         case Deny(_, _) => e
         case Release(r, _) => PassOn(e, c.engines.Keys, r).state
  }

  lemma MessageReaches(c: Cluster, m: LockMsg, n: int)
    requires m.to in c.engines && n in c.engines
    ensures Receive(Taken(c, m), m).engines.Keys == c.engines.Keys
    ensures Receive(Taken(c, m), m).engines[n] == EngineAfter(c, m, n)
  {
  }

  lemma EngineFollows(c: Cluster, m: LockMsg, n: int)
    requires m in c.msgs && m.to in c.engines && n in c.engines
    ensures Follows(EngineAfter(c, m, n), c.engines[n], c.engines.Keys, EventsAt(c, Deliver(m), n))
  {
    var e := c.engines[n];
    if m.to == n && m.Request? {
      EventFollows(e, c.engines.Keys, Arrives(m.req, m.from));
    } else if m.to == n && m.Release? {
      EventFollows(e, c.engines.Keys, Releases(m.req));
    } else {
      NothingFollows(EngineAfter(c, m, n), e, c.engines.Keys);
    }
  }

  lemma DeliveryArbitrates(c: Cluster, m: LockMsg, n: int)
    requires m in c.msgs && m.to in c.engines && n in c.engines
    ensures Receive(Taken(c, m), m).engines.Keys == c.engines.Keys
    ensures Follows(Receive(Taken(c, m), m).engines[n], c.engines[n], c.engines.Keys, EventsAt(c, Deliver(m), n))
  {
    MessageReaches(c, m, n);
    EngineFollows(c, m, n);
  }

  lemma LeaveArbitrates(c: Cluster, r: ReqId, n: int)
    requires Enabled(c, LetGo(r)) && n in c.engines
    ensures Leave(c, r).engines.Keys == c.engines.Keys
    ensures Follows(Leave(c, r).engines[n], c.engines[n], c.engines.Keys, EventsAt(c, LetGo(r), n))
  {
    EventFollows(c.engines[c.attempts[r].owner], c.engines.Keys, Releases(r));
  }

  lemma StepArbitrates(c: Cluster, ev: Event, n: int)
    requires Enabled(c, ev) && n in c.engines
    ensures n in Next(c, ev).engines && Next(c, ev).engines.Keys == c.engines.Keys
    ensures Follows(Next(c, ev).engines[n], c.engines[n], c.engines.Keys, EventsAt(c, ev, n))
  {
    match ev
    case LetGo(r) => LeaveArbitrates(c, r, n);
    case Deliver(m) => DeliveryArbitrates(c, m, n);
    case _ =>
  }

  lemma {:induction false} ArbitrateMore(x: EngineState, known: set<int>, a: seq<ArbiterEvent>, b: seq<ArbiterEvent>)
    ensures ArbitrateAll(x, known, a + b) == ArbitrateAll(ArbitrateAll(x, known, a), known, b)
    decreases |b|
  {
    if b == [] {
      assert a + b == a;
    } else {
      assert (a + b)[..|a + b| - 1] == a + b[..|b| - 1];
      ArbitrateMore(x, known, a, b[..|b| - 1]);
    }
  }

  lemma ArbitrateOne(x: EngineState, known: set<int>, es: seq<ArbiterEvent>)
    requires |es| <= 1
    ensures ArbitrateAll(x, known, es) == if es == [] then x else Arbitrate(x, known, es[0])
  {
    if es != [] {
      assert es[..0] == [] && ArbitrateAll(x, known, es[..0]) == x;
    }
  }

  /** One step of the cluster is at most one event of an arbiter, by a request with a proper ID. */
  lemma OneStepArbitrates(c: Cluster, ev: Event, n: int, x: EngineState)
    requires Inv(c) && Enabled(c, ev) && n in c.engines && SameOrder(x, c.engines[n])
    ensures n in Next(c, ev).engines && Next(c, ev).engines.Keys == c.engines.Keys
    ensures SameOrder(ArbitrateAll(x, c.engines.Keys, EventsAt(c, ev, n)), Next(c, ev).engines[n])
    ensures Named(EventsAt(c, ev, n))
  {
    var es := EventsAt(c, ev, n);
    StepArbitrates(c, ev, n);
    ArbitrateOne(x, c.engines.Keys, es);
    if ev.Deliver? {
      assert MsgOk(c, ev.msg);
      assert AttemptOk(c, ev.msg.req);
    }
  }

  lemma {:induction false} RunArbitrates(c: Cluster, evs: seq<Event>, n: int, x: EngineState)
    requires Inv(c) && Legal(c, evs) && n in c.engines && SameOrder(x, c.engines[n])
    ensures n in Run(c, evs).engines && Run(c, evs).engines.Keys == c.engines.Keys
    ensures SameOrder(Run(c, evs).engines[n], ArbitrateAll(x, c.engines.Keys, TraceAt(c, evs, n)))
    ensures Named(TraceAt(c, evs, n))
    decreases |evs|
  {
    if evs == [] {
    } else {
      var es, d := EventsAt(c, evs[0], n), Next(c, evs[0]);
      OneStepArbitrates(c, evs[0], n, x);
      StepKeeps(c, evs[0]);
      RunArbitrates(d, evs[1..], n, ArbitrateAll(x, c.engines.Keys, es));
      ArbitrateMore(x, c.engines.Keys, es, TraceAt(d, evs[1..], n));
    }
  }

  /** In every run, every node's holders so far followed by its queue are the requests that reached it, in
      order of arrival; a free lock has no queue. */
  lemma FifoInEveryRun(start: Cluster, evs: seq<Event>, n: int)
    requires Init(start) && Legal(start, evs) && n in start.engines
    ensures var trace := TraceAt(start, evs, n);
            && n in Run(start, evs).engines
            && InOrder(Run(start, evs).engines[n], Holders(start.engines.Keys, trace), Arrivals(trace),
                       EffectiveSince(start.engines.Keys, trace, 0))
  {
    var trace := TraceAt(start, evs, n);
    RunArbitrates(start, evs, n, IDLE);
    FifoOwnership(start.engines.Keys, trace);
  }

  lemma {:induction false} ArrivalsAdd(a: seq<ArbiterEvent>, b: seq<ArbiterEvent>)
    ensures Arrivals(a + b) == Arrivals(a) + Arrivals(b)
    decreases |b|
  {
    if b == [] {
      assert a + b == a;
    } else {
      assert (a + b)[..|a + b| - 1] == a + b[..|b| - 1];
      ArrivalsAdd(a, b[..|b| - 1]);
    }
  }

  /** A request that has been made and whose LOCK_REQUEST is not under way does not arrive any more. */
  ghost predicate Settled(c: Cluster, r: ReqId) {
    r in c.attempts && !Waits(c, r)
  }

  lemma SettledStays(c: Cluster, ev: Event, r: ReqId)
    requires Inv(c) && Enabled(c, ev) && Settled(c, r)
    ensures Settled(Next(c, ev), r)
  {
    match ev
    case LetGo(q) => SettledThroughRelease(c, q, r);
    case Deliver(m) => SettledThroughDelivery(c, m, r);
    case _ =>
  }

  lemma SettledThroughRelease(c: Cluster, q: ReqId, r: ReqId)
    requires Enabled(c, LetGo(q)) && Settled(c, r)
    ensures Settled(Leave(c, q), r)
  {
  }

  lemma SettledThroughDelivery(c: Cluster, m: LockMsg, r: ReqId)
    requires m in c.msgs && m.to in c.engines && Settled(c, r)
    ensures Settled(Receive(Taken(c, m), m), r)
  {
  }

  /** What arrives has not arrived before, and is settled afterwards. */
  lemma ArrivesOnce(c: Cluster, ev: Event, n: int, r: ReqId)
    requires Inv(c) && Enabled(c, ev) && r in Arrivals(EventsAt(c, ev, n))
    ensures Arrivals(EventsAt(c, ev, n)) == [r] && !Settled(c, r) && Settled(Next(c, ev), r)
  {
    var es := EventsAt(c, ev, n);
    assert |es| == 1 && es[..0] == [];
    match ev
    case StartLocal(q, m) => FreshIsNowhere(c, q);
    case Deliver(m) =>
      assert MsgOk(c, m) && AttemptOk(c, m.req);
      RequestIsSpent(c, m);
  }

  lemma RequestIsSpent(c: Cluster, m: LockMsg)
    requires Inv(c) && m in c.msgs && m.Request?
    ensures m.to in c.engines && Settled(Receive(Taken(c, m), m), m.req)
  {
    assert MsgOk(c, m);
    assert m !in Taken(c, m).msgs;
  }

  lemma {:induction false} NeverArrivesAgain(c: Cluster, evs: seq<Event>, n: int, r: ReqId)
    requires Inv(c) && Legal(c, evs) && Settled(c, r)
    ensures r !in Arrivals(TraceAt(c, evs, n))
    decreases |evs|
  {
    if evs == [] {
    } else {
      var es, d := EventsAt(c, evs[0], n), Next(c, evs[0]);
      SettledStays(c, evs[0], r);
      StepKeeps(c, evs[0]);
      NeverArrivesAgain(d, evs[1..], n, r);
      ArrivalsAdd(es, TraceAt(d, evs[1..], n));
      if r in Arrivals(es) {
        ArrivesOnce(c, evs[0], n, r);
      }
    }
  }

  lemma {:induction false} ArrivalsAreDistinct(c: Cluster, evs: seq<Event>, n: int)
    requires Inv(c) && Legal(c, evs)
    ensures Distinct(Arrivals(TraceAt(c, evs, n)))
    decreases |evs|
  {
    if evs == [] {
    } else {
      var es, d := EventsAt(c, evs[0], n), Next(c, evs[0]);
      var rest := TraceAt(d, evs[1..], n);
      StepKeeps(c, evs[0]);
      ArrivalsAreDistinct(d, evs[1..], n);
      ArrivalsAdd(es, rest);
      if Arrivals(es) != [] {
        var r := Arrivals(es)[0];
        ArrivesOnce(c, evs[0], n, r);
        NeverArrivesAgain(d, evs[1..], n, r);
      }
    }
  }

  lemma {:induction false} SettledAlways(c: Cluster, evs: seq<Event>, r: ReqId)
    requires Inv(c) && Legal(c, evs) && Settled(c, r)
    ensures Settled(Run(c, evs), r)
    decreases |evs|
  {
    if evs == [] {
    } else {
      SettledStays(c, evs[0], r);
      StepKeeps(c, evs[0]);
      SettledAlways(Next(c, evs[0]), evs[1..], r);
    }
  }

  lemma {:induction false} ArrivedIsSettled(c: Cluster, evs: seq<Event>, n: int, r: ReqId)
    requires Inv(c) && Legal(c, evs) && r in Arrivals(TraceAt(c, evs, n))
    ensures Settled(Run(c, evs), r)
    decreases |evs|
  {
    if evs == [] {
    } else {
      var es, d := EventsAt(c, evs[0], n), Next(c, evs[0]);
      StepKeeps(c, evs[0]);
      ArrivalsAdd(es, TraceAt(d, evs[1..], n));
      if r in Arrivals(es) {
        ArrivesOnce(c, evs[0], n, r);
        SettledAlways(d, evs[1..], r);
      } else {
        ArrivedIsSettled(d, evs[1..], n, r);
      }
    }
  }

  /** What arrives in the second half of a run has not arrived in the first. */
  lemma HalvesAreDistinct(c: Cluster, a: seq<Event>, b: seq<Event>, n: int)
    requires Inv(c) && Legal(c, a) && Legal(Run(c, a), b)
    ensures Distinct(Arrivals(TraceAt(c, a, n) + TraceAt(Run(c, a), b, n)))
  {
    var ta, tb := TraceAt(c, a, n), TraceAt(Run(c, a), b, n);
    InvAlways(c, a);
    ArrivalsAreDistinct(c, a, n);
    ArrivalsAreDistinct(Run(c, a), b, n);
    ArrivalsAdd(ta, tb);
    forall r | r in Arrivals(ta) ensures r !in Arrivals(tb) {
      ArrivedIsSettled(c, a, n, r);
      NeverArrivesAgain(Run(c, a), b, n, r);
    }
    JoinDistinct(Arrivals(ta), Arrivals(tb));
  }

  lemma JoinDistinct(a: seq<ReqId>, b: seq<ReqId>)
    requires Distinct(a) && Distinct(b) && forall r :: r in a ==> r !in b
    ensures Distinct(a + b)
  {
    forall i, j | 0 <= i < j < |a + b| ensures (a + b)[i] != (a + b)[j] {
      if i < |a| <= j {
        assert a[i] in a && b[j - |a|] in b;
      }
    }
  }

  /** In every run, the request at index k of a node's queue is that node's holder later on if and only if
      exactly k + 1 effective releases have reached the node since. */
  lemma TurnInEveryRun(start: Cluster, a: seq<Event>, b: seq<Event>, n: int, k: nat)
    requires Init(start) && Legal(start, a) && Legal(Run(start, a), b) && n in start.engines
    requires n in Run(start, a).engines && k < |Run(start, a).engines[n].queue|
    ensures var known, ta, tb := start.engines.Keys, TraceAt(start, a, n), TraceAt(Run(start, a), b, n);
            && n in Run(Run(start, a), b).engines
            && (Run(Run(start, a), b).engines[n].holder == Run(start, a).engines[n].queue[k].req
                <==> EffectiveSince(known, ta + tb, |ta|) == k + 1)
  {
    var known, ta, tb := start.engines.Keys, TraceAt(start, a, n), TraceAt(Run(start, a), b, n);
    InvAlways(start, a);
    RunArbitrates(start, a, n, IDLE);
    var mid := ArbitrateAll(IDLE, known, ta);
    RunArbitrates(Run(start, a), b, n, mid);
    ArbitrateMore(IDLE, known, ta, tb);
    HalvesAreDistinct(start, a, b, n);
    assert (ta + tb)[..|ta|] == ta;
    TurnComesAfterExactly(known, ta + tb, |ta|, k);
  }
}
