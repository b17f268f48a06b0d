/** The lock engine of one node (internal/mutex/mutex.go).

    Every node can arbitrate: it keeps the request that holds the lock, a FIFO queue of requests that
    wait for it, and the channels on which its own callers wait for a grant.  A channel belongs to
    exactly one request, so `grants` is the set of requests whose channel is registered and `tokens`
    counts what lies in the channels, registered or not: a channel taken out of the map is still read
    by the caller that made it.  A node is identified by its ID; the source routes replies by name,
    and names are distinct. */
module LockEngine {
  /** A request ID: a UUID, or the empty string, which the engine also uses for "nobody". */
  datatype ReqId = Nobody | Uuid(n: nat)

  datatype Pending = Pending(req: ReqId, from: int)

  datatype LockMsg =
    | Request(req: ReqId, from: int, to: int)
    | Grant(req: ReqId, to: int)
    | Deny(req: ReqId, to: int)
    | Release(req: ReqId, to: int)

  datatype EngineState = EngineState(
    holder: ReqId,              // Nobody means that the lock is free
    queue: seq<Pending>,
    grants: set<ReqId>,
    tokens: multiset<ReqId>)

  const IDLE := EngineState(Nobody, [], {}, multiset{})

  datatype Outcome = Outcome(state: EngineState, sends: seq<LockMsg>)

  // ---- what each critical section does -------------------------------------------------------

  /** A request reaches the arbiter: it takes a free lock or joins the end of the queue. */
  function Arrive(e: EngineState, req: ReqId, from: int): EngineState {
    if e.holder == Nobody then e.(holder := req) else e.(queue := e.queue + [Pending(req, from)])
  }

  function HandleRequest(e: EngineState, known: set<int>, req: ReqId, from: int): Outcome {
    Outcome(Arrive(e, req, from),
            if from !in known then []
            else if e.holder == Nobody then [Grant(req, from)] else [Deny(req, from)])
  }

  /** The holder gives the lock up: the head of the queue becomes the holder, and is told through its
      channel when that is registered here and by a LOCK_GRANT message when it is not. */
  function PassOn(e: EngineState, known: set<int>, req: ReqId): Outcome {
    if e.holder != req then Outcome(e, [])
    else if e.queue == [] then Outcome(e.(holder := Nobody), [])
    else
      var next := e.queue[0];
      var freed := e.(holder := next.req, queue := e.queue[1..]);
      if next.req in e.grants then
        Outcome(freed.(grants := e.grants - {next.req}, tokens := e.tokens + multiset{next.req}), [])
      else
        Outcome(freed, if next.from in known then [Grant(next.req, next.from)] else [])
  }

  function Register(e: EngineState, req: ReqId): EngineState {
    e.(grants := e.grants + {req})
  }

  function Unregister(e: EngineState, req: ReqId): EngineState {
    e.(grants := e.grants - {req})
  }

  function HandleGrant(e: EngineState, req: ReqId): EngineState {
    if req in e.grants then e.(tokens := e.tokens + multiset{req}) else e
  }

  function TakeToken(e: EngineState, req: ReqId): EngineState
    requires req in e.tokens
  {
    e.(tokens := e.tokens - multiset{req})
  }

  // ---- the engine object ---------------------------------------------------------------------

  class Engine {
    const self: int
    const known: set<int>
    var holder: ReqId
    var queue: seq<Pending>
    var grants: set<ReqId>
    var tokens: multiset<ReqId>

    constructor (self: int, known: set<int>)
      ensures this.self == self && this.known == known && View() == IDLE
    {
      this.self, this.known := self, known;
      holder, queue, grants, tokens := Nobody, [], {}, multiset{};
    }

    function View(): EngineState
      reads this
    {
      EngineState(holder, queue, grants, tokens)
    }

    /** First critical section of acquireLocal. */
    method AcquireLocal(req: ReqId) returns (held: bool)
      modifies this
      ensures View() == Arrive(old(View()), req, self)
      ensures held == (old(holder) == Nobody)
      ensures held ==> holder == req && queue == old(queue)
      ensures !held ==> holder == old(holder) && queue == old(queue) + [Pending(req, self)]
    {
      if holder == Nobody {
        holder := req;
        return true;
      }
      queue := queue + [Pending(req, self)];
      held := false;
    }

    /** Second critical section of acquireLocal and first one of acquireRemote. */
    method RegisterChannel(req: ReqId)
      modifies this`grants
      ensures View() == Register(old(View()), req) && grants == old(grants) + {req}
    {
      grants := grants + {req};
    }

    /** acquireRemote forgets its channel when the send fails and when it times out. */
    method ForgetChannel(req: ReqId)
      modifies this`grants
      ensures View() == Unregister(old(View()), req) && grants == old(grants) - {req}
    {
      grants := grants - {req};
    }

    /** The caller reads its channel. */
    method Receive(req: ReqId) returns (granted: bool)
      modifies this`tokens
      ensures granted == (req in old(tokens))
      ensures tokens == old(tokens) - multiset{req}
      ensures View() == if granted then TakeToken(old(View()), req) else old(View())
    {
      granted := req in tokens;
      if granted {
        tokens := tokens - multiset{req};
      }
    }

    method ReleaseLocal(req: ReqId) returns (sends: seq<LockMsg>)
      modifies this
      ensures Outcome(View(), sends) == PassOn(old(View()), known, req)
      ensures old(holder) != req ==> View() == old(View()) && sends == []
      ensures old(holder) == req && old(queue) == [] ==> View() == old(View()).(holder := Nobody) && sends == []
      ensures old(holder) == req && old(queue) != [] ==>
                var next := old(queue)[0];
                && holder == next.req && queue == old(queue)[1..] && grants == old(grants) - {next.req}
                && (next.req in old(grants) ==> tokens == old(tokens) + multiset{next.req} && sends == [])
                && (next.req !in old(grants) ==>
                      && tokens == old(tokens)
                      && sends == if next.from in known then [Grant(next.req, next.from)] else [])
    {
      sends := [];
      if holder != req {
        return;
      }
      holder := Nobody;
      if |queue| > 0 {
        var next := queue[0];
        queue := queue[1..];
        holder := next.req;
        if next.req in grants {
          tokens := tokens + multiset{next.req};
          grants := grants - {next.req};
        } else if next.from in known {
          sends := [Grant(next.req, next.from)];
        }
      }
    }

    method HandleLockRequest(req: ReqId, from: int) returns (sends: seq<LockMsg>)
      modifies this
      ensures Outcome(View(), sends) == HandleRequest(old(View()), known, req, from)
      ensures old(holder) == Nobody ==> View() == old(View()).(holder := req)
      ensures old(holder) != Nobody ==> View() == old(View()).(queue := old(queue) + [Pending(req, from)])
      ensures sends == if from !in known then []
                       else if old(holder) == Nobody then [Grant(req, from)] else [Deny(req, from)]
    {
      sends := [];
      if holder == Nobody {
        holder := req;
        if from in known {
          sends := [Grant(req, from)];
        }
      } else {
        queue := queue + [Pending(req, from)];
        if from in known {
          sends := [Deny(req, from)];
        }
      }
    }

    method HandleLockGrant(req: ReqId)
      modifies this`tokens
      ensures View() == HandleGrant(old(View()), req)
      ensures tokens == if req in grants then old(tokens) + multiset{req} else old(tokens)
    {
      if req in grants {
        tokens := tokens + multiset{req};
      }
    }

    method HandleLockRelease(req: ReqId) returns (sends: seq<LockMsg>)
      modifies this
      ensures Outcome(View(), sends) == PassOn(old(View()), known, req)
    {
      sends := ReleaseLocal(req);
    }
  }

  // ---- FIFO ownership ------------------------------------------------------------------------

  /** What can happen to holder and queue; registering channels touches neither. */
  datatype ArbiterEvent = Arrives(req: ReqId, from: int) | Releases(req: ReqId)

  function Arbitrate(e: EngineState, known: set<int>, ev: ArbiterEvent): EngineState {
    match ev
    case Arrives(req, from) => Arrive(e, req, from)
    case Releases(req) => PassOn(e, known, req).state
  }

  function ArbitrateAll(e: EngineState, known: set<int>, evs: seq<ArbiterEvent>): EngineState
    decreases |evs|
  {
    if evs == [] then e
    else Arbitrate(ArbitrateAll(e, known, evs[..|evs| - 1]), known, evs[|evs| - 1])
  }

  /** The requests in the order in which they reached the arbiter. */
  function Arrivals(evs: seq<ArbiterEvent>): seq<ReqId>
    decreases |evs|
  {
    if evs == [] then []
    else
      var before := Arrivals(evs[..|evs| - 1]);
      match evs[|evs| - 1]
      case Arrives(req, _) => before + [req]
      case Releases(_) => before
  }

  /** A release counts only when it comes from the holder of a lock that is not free. */
  predicate Effective(e: EngineState, ev: ArbiterEvent) {
    ev.Releases? && e.holder != Nobody && ev.req == e.holder
  }

  /** The effective releases among the last |evs| - from events. */
  function EffectiveSince(known: set<int>, evs: seq<ArbiterEvent>, from: nat): nat
    requires from <= |evs|
    decreases |evs|
  {
    if from == |evs| then 0
    else
      var before := evs[..|evs| - 1];
      EffectiveSince(known, before, from)
        + if Effective(ArbitrateAll(IDLE, known, before), evs[|evs| - 1]) then 1 else 0
  }

  /** The request that gets the lock in this event, if any. */
  function NewHolder(e: EngineState, known: set<int>, ev: ArbiterEvent): seq<ReqId> {
    var now := Arbitrate(e, known, ev);
    if now.holder != Nobody && (e.holder == Nobody || Effective(e, ev)) then [now.holder] else []
  }

  /** The holders so far, in the order in which they got the lock. */
  function Holders(known: set<int>, evs: seq<ArbiterEvent>): seq<ReqId>
    decreases |evs|
  {
    if evs == [] then []
    else
      var before := evs[..|evs| - 1];
      Holders(known, before) + NewHolder(ArbitrateAll(IDLE, known, before), known, evs[|evs| - 1])
  }

  function Ids(queue: seq<Pending>): (ids: seq<ReqId>)
    ensures |ids| == |queue|
    ensures forall i :: 0 <= i < |queue| ==> ids[i] == queue[i].req
  {
    seq(|queue|, i requires 0 <= i < |queue| => queue[i].req)
  }

  /** Request IDs are UUIDs: never empty. */
  ghost predicate Named(evs: seq<ArbiterEvent>) {
    forall i :: 0 <= i < |evs| && evs[i].Arrives? ==> evs[i].req != Nobody
  }

  /** The holders so far followed by the queue are the arrivals; a free lock has no queue; the lock has
      changed hands as often as an effective release has happened. */
  ghost predicate InOrder(e: EngineState, holders: seq<ReqId>, arrivals: seq<ReqId>, effective: nat) {
    && holders + Ids(e.queue) == arrivals
    && (e.holder == Nobody ==> e.queue == [])
    && (e.holder != Nobody ==> holders != [] && holders[|holders| - 1] == e.holder)
    && |holders| == effective + (if e.holder == Nobody then 0 else 1)
    && forall i :: 0 <= i < |e.queue| ==> e.queue[i].req != Nobody
  }

  lemma ArrivalKeepsOrder(e: EngineState, known: set<int>, req: ReqId, from: int, holders: seq<ReqId>,
                          arrivals: seq<ReqId>, effective: nat)
    requires req != Nobody && InOrder(e, holders, arrivals, effective)
    ensures var ev := Arrives(req, from);
            InOrder(Arrive(e, req, from), holders + NewHolder(e, known, ev), arrivals + [req], effective)
  {
    var now := Arrive(e, req, from);
    if e.holder != Nobody {
      assert Ids(now.queue) == Ids(e.queue) + [req];
      assert holders + [] == holders;
    }
  }

  lemma ReleaseKeepsOrder(e: EngineState, known: set<int>, req: ReqId, holders: seq<ReqId>,
                          arrivals: seq<ReqId>, effective: nat)
    requires InOrder(e, holders, arrivals, effective)
    ensures var ev := Releases(req);
            InOrder(Arbitrate(e, known, ev), holders + NewHolder(e, known, ev), arrivals,
                    effective + if Effective(e, ev) then 1 else 0)
  {
    var ev := Releases(req);
    var now := Arbitrate(e, known, ev);
    if !Effective(e, ev) {
      assert now == e;
      assert NewHolder(e, known, ev) == [];
      assert holders + [] == holders;
    } else if e.queue == [] {
      assert NewHolder(e, known, ev) == [];
      assert holders + [] == holders;
    } else {
      var next := e.queue[0];
      assert now.holder == next.req && now.queue == e.queue[1..];
      assert NewHolder(e, known, ev) == [next.req];
      assert Ids(e.queue) == [next.req] + Ids(now.queue);
      assert holders + [next.req] + Ids(now.queue) == holders + ([next.req] + Ids(now.queue));
    }
  }

  /** At every arbiter, after every sequence of arrivals and releases. */
  lemma {:induction false} FifoOwnership(known: set<int>, evs: seq<ArbiterEvent>)
    requires Named(evs)
    ensures InOrder(ArbitrateAll(IDLE, known, evs), Holders(known, evs), Arrivals(evs), EffectiveSince(known, evs, 0))
    decreases |evs|
  {
    if evs == [] {
    } else {
      var before, last := evs[..|evs| - 1], evs[|evs| - 1];
      FifoOwnership(known, before);
      var was := ArbitrateAll(IDLE, known, before);
      match last
      case Arrives(req, from) =>
        ArrivalKeepsOrder(was, known, req, from,
                          Holders(known, before), Arrivals(before), EffectiveSince(known, before, 0));
      case Releases(req) =>
        ReleaseKeepsOrder(was, known, req, Holders(known, before), Arrivals(before), EffectiveSince(known, before, 0));
    }
  }

  lemma {:induction false} EffectiveSplits(known: set<int>, evs: seq<ArbiterEvent>, cut: nat)
    requires cut <= |evs|
    ensures EffectiveSince(known, evs, 0) == EffectiveSince(known, evs[..cut], 0) + EffectiveSince(known, evs, cut)
    decreases |evs|
  {
    if cut == |evs| {
      assert evs[..cut] == evs;
    } else {
      var before := evs[..|evs| - 1];
      EffectiveSplits(known, before, cut);
      assert before[..cut] == evs[..cut];
    }
  }

  lemma {:induction false} ArrivalsGrow(evs: seq<ArbiterEvent>, cut: nat)
    requires cut <= |evs|
    ensures Arrivals(evs[..cut]) <= Arrivals(evs)
    decreases |evs|
  {
    if cut == |evs| {
      assert evs[..cut] == evs;
    } else {
      ArrivalsGrow(evs[..|evs| - 1], cut);
      assert evs[..|evs| - 1][..cut] == evs[..cut];
    }
  }

  /** A queued request becomes the holder after exactly k + 1 effective releases, k being its index,
      whatever else arrives and whether or not anybody still waits for it. */
  lemma {:induction false} TurnComesAfterExactly(known: set<int>, evs: seq<ArbiterEvent>, cut: nat, k: nat)
    requires Named(evs) && cut <= |evs|
    requires forall i, j :: 0 <= i < j < |Arrivals(evs)| ==> Arrivals(evs)[i] != Arrivals(evs)[j]
    requires k < |ArbitrateAll(IDLE, known, evs[..cut]).queue|
    ensures var waiting := ArbitrateAll(IDLE, known, evs[..cut]).queue[k].req;
            ArbitrateAll(IDLE, known, evs).holder == waiting <==> EffectiveSince(known, evs, cut) == k + 1
  {
    var mid := evs[..cut];
    var before := ArbitrateAll(IDLE, known, mid);
    var after := ArbitrateAll(IDLE, known, evs);
    FifoOwnership(known, mid);
    FifoOwnership(known, evs);
    EffectiveSplits(known, evs, cut);
    ArrivalsGrow(evs, cut);
    var h := |Holders(known, mid)|;
    var waiting := before.queue[k].req;
    assert Arrivals(mid)[h + k] == waiting;
    assert Arrivals(evs)[h + k] == waiting;
    if after.holder != Nobody {
      var last := |Holders(known, evs)| - 1;
      assert Arrivals(evs)[last] == after.holder;
      assert last == h - 1 + EffectiveSince(known, evs, cut);
    } else {
      assert |Holders(known, evs)| == |Arrivals(evs)| >= h + |before.queue|;
    }
  }
}
