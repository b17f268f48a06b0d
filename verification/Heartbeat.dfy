/** The failure detector (internal/heartbeat/heartbeat.go).

    Every tick starts one goroutine per peer, PONGs are handled in goroutines of their own, and all of them
    share three maps under one mutex.  A step below is one section under a mutex, one channel operation or
    one expiry of the timer.  A goroutine and the channel it makes share their identity. */
module Heartbeat {
  import opened Common
  import NodeState

  const MAX_MISSED := 3

  // ---- the monitor object ------------------------------------------------------------------------

  /** What a death makes a node do. */
  datatype Action = StartElection | Redistribute(dead: int) | TellMaster(dead: int) | Nothing

  function CountOf(missed: map<int, nat>, peer: int): nat {
    if peer in missed then missed[peer] else 0
  }

  /** The three maps under the mutex. */
  datatype Maps = Maps(missed: map<int, nat>, pongChs: map<int, int>, inFlight: set<int>)

  // What each section under the mutex makes of them.

  function Claiming(m: Maps, peer: int): Maps {
    m.(inFlight := m.inFlight + {peer})
  }

  function Registering(m: Maps, peer: int, ch: int): Maps {
    m.(pongChs := m.pongChs[peer := ch])
  }

  function Clearing(m: Maps, peer: int): Maps {
    m.(missed := m.missed[peer := 0])
  }

  function CountingMiss(m: Maps, peer: int): Maps {
    m.(missed := m.missed[peer := CountOf(m.missed, peer) + 1])
  }

  function Unregistering(m: Maps, peer: int): Maps {
    m.(pongChs := m.pongChs - {peer})
  }

  function Unclaiming(m: Maps, peer: int): Maps {
    m.(inFlight := m.inFlight - {peer})
  }

  class Monitor {
    var missed: map<int, nat>
    var pongChs: map<int, int>
    var inFlight: set<int>

    constructor ()
      ensures View() == Maps(map[], map[], {})
    {
      missed, pongChs, inFlight := map[], map[], {};
    }

    function View(): Maps
      reads this
    {
      Maps(missed, pongChs, inFlight)
    }

    /** Of two goroutines for one peer the second gives up. */
    method Claim(peer: int) returns (ok: bool)
      modifies this`inFlight
      ensures ok == (peer !in old(inFlight)) && View() == Claiming(old(View()), peer)
    {
      if peer in inFlight {
        return false;
      }
      inFlight := inFlight + {peer};
      ok := true;
    }

    method Register(peer: int, ch: int)
      modifies this`pongChs
      ensures View() == Registering(old(View()), peer, ch)
    {
      pongChs := pongChs[peer := ch];
    }

    method ClearMissed(peer: int)
      modifies this`missed
      ensures View() == Clearing(old(View()), peer)
    {
      missed := missed[peer := 0];
    }

    method CountMiss(peer: int) returns (n: nat)
      modifies this`missed
      ensures View() == CountingMiss(old(View()), peer) && n == CountOf(missed, peer)
    {
      n := (if peer in missed then missed[peer] else 0) + 1;
      missed := missed[peer := n];
    }

    method Unregister(peer: int)
      modifies this`pongChs
      ensures View() == Unregistering(old(View()), peer)
    {
      pongChs := pongChs - {peer};
    }

    method Unclaim(peer: int)
      modifies this`inFlight
      ensures View() == Unclaiming(old(View()), peer)
    {
      inFlight := inFlight - {peer};
    }

    /** The channel a PONG goes to. */
    method FindChannel(peer: int) returns (ch: Option<int>)
      ensures ch == if peer in pongChs then Some(pongChs[peer]) else None
    {
      ch := if peer in pongChs then Some(pongChs[peer]) else None;
    }

    /** Acts on a death that is news, and only then: the master's sets off an election, another node's is dealt
        with by the master itself or told to it, when there is a configured one. */
    method DeclareDead(id: int, state: NodeState.State) returns (action: Action)
      modifies state`alive
      ensures state.alive == old(state.alive) - {id}
      ensures id !in old(state.alive) ==> action == Nothing
      ensures id in old(state.alive) ==>
                && (action == StartElection <==> id == state.masterID)
                && (action == Redistribute(id) <==> id != state.masterID && state.self.id == state.masterID)
                && (action == TellMaster(id) <==>
                      && id != state.masterID && state.self.id != state.masterID
                      && exists n :: n in state.all && n.id == state.masterID)
                && (action == Nothing <==>
                      && id != state.masterID && state.self.id != state.masterID
                      && forall n :: n in state.all ==> n.id != state.masterID)
    {
      if id !in state.alive {
        return Nothing;
      }
      state.MarkDead(id);
      if id == state.masterID {
        action := StartElection;
      } else if state.IsMaster() {
        action := Redistribute(id);
      } else {
        var master := state.GetMasterNode();
        action := if master.Some? then TellMaster(id) else Nothing;
      }
    }
  }

  // ---- outcomes and deaths -----------------------------------------------------------------------

  datatype Note = Pong | Miss | Death

  /** The misses since the last PONG. */
  function Trailing(log: seq<Note>): nat {
    if log == [] then 0
    else
      var rest := Trailing(log[..|log| - 1]);
      match log[|log| - 1] case Pong => 0 case Miss => rest + 1 case Death => rest
  }

  function Strip(log: seq<Note>): seq<Note> {
    if log == [] then []
    else Strip(log[..|log| - 1]) + (if log[|log| - 1] == Death then [] else [log[|log| - 1]])
  }

  /** The simple detector: given how the pings ended, a death right after the third miss in a row. */
  function Annotate(outcomes: seq<Note>): seq<Note> {
    if outcomes == [] then []
    else
      var rest := Annotate(outcomes[..|outcomes| - 1]) + [outcomes[|outcomes| - 1]];
      if outcomes[|outcomes| - 1] == Miss && Trailing(outcomes) == MAX_MISSED then rest + [Death] else rest
  }

  /** No outcome is waiting for the death that belongs to it. */
  predicate Settled(log: seq<Note>) {
    log == Annotate(Strip(log))
  }

  /** The last ping has timed out and the death that may belong to it is still to come. */
  predicate Pending(log: seq<Note>) {
    log != [] && log[|log| - 1] == Miss && Settled(log[..|log| - 1])
  }

  lemma {:induction false} TrailingStrip(log: seq<Note>)
    ensures Trailing(Strip(log)) == Trailing(log)
    decreases |log|
  {
    if log == [] {
    } else {
      var last := |log| - 1;
      TrailingStrip(log[..last]);
      if log[last] != Death {
        assert Strip(log)[..|Strip(log)| - 1] == Strip(log[..last]);
      } else {
        assert Strip(log) == Strip(log[..last]);
      }
    }
  }

  lemma OneNote(log: seq<Note>, n: Note)
    ensures Strip(log + [n]) == Strip(log) + if n == Death then [] else [n]
    ensures Trailing(log + [n]) == match n case Pong => 0 case Miss => Trailing(log) + 1 case Death => Trailing(log)
  {
    assert (log + [n])[..|log|] == log;
  }

  lemma OneOutcome(outcomes: seq<Note>, n: Note)
    ensures Annotate(outcomes + [n]) == Annotate(outcomes) + [n]
            + if n == Miss && Trailing(outcomes + [n]) == MAX_MISSED then [Death] else []
  {
    assert (outcomes + [n])[..|outcomes|] == outcomes;
  }

  lemma PongSettles(log: seq<Note>)
    requires Settled(log)
    ensures Settled(log + [Pong]) && Trailing(log + [Pong]) == 0
  {
    OneNote(log, Pong);
    OneOutcome(Strip(log), Pong);
  }

  lemma MissPends(log: seq<Note>)
    requires Settled(log)
    ensures Pending(log + [Miss]) && Trailing(log + [Miss]) == Trailing(log) + 1
  {
    OneNote(log, Miss);
    assert (log + [Miss])[..|log|] == log;
  }

  lemma PendingSettles(log: seq<Note>)
    requires Pending(log)
    ensures Trailing(log) != MAX_MISSED ==> Settled(log)
    ensures Trailing(log) == MAX_MISSED ==> Settled(log + [Death])
    ensures Trailing(log + [Death]) == Trailing(log)
  {
    var prev := log[..|log| - 1];
    assert log == prev + [Miss];
    OneNote(prev, Miss);
    OneNote(log, Death);
    OneOutcome(Strip(prev), Miss);
    TrailingStrip(log);
    assert Strip(log) == Strip(prev) + [Miss] && Strip(log + [Death]) == Strip(log);
    assert Annotate(Strip(log)) == log + if Trailing(log) == MAX_MISSED then [Death] else [];
  }

  /** The deaths since the last PONG. */
  function RecentDeaths(log: seq<Note>): nat {
    if log == [] then 0
    else
      var rest := RecentDeaths(log[..|log| - 1]);
      match log[|log| - 1] case Pong => 0 case Miss => rest case Death => rest + 1
  }

  lemma {:induction false} OneDeathPerOutage(outcomes: seq<Note>)
    requires Death !in outcomes
    ensures Trailing(Annotate(outcomes)) == Trailing(outcomes)
    ensures RecentDeaths(Annotate(outcomes)) == if Trailing(outcomes) >= MAX_MISSED then 1 else 0
    ensures forall n :: 0 <= n <= |Annotate(outcomes)| ==> RecentDeaths(Annotate(outcomes)[..n]) <= 1
    decreases |outcomes|
  {
    if outcomes == [] {
    } else {
      var last := |outcomes| - 1;
      assert outcomes[last] in outcomes;
      OneDeathPerOutage(outcomes[..last]);
      OneMoreOutcome(outcomes);
      var a, all := Annotate(outcomes[..last]), Annotate(outcomes);
      forall n | 0 <= n <= |all| ensures RecentDeaths(all[..n]) <= 1 {
        if n <= |a| {
          assert all[..n] == a[..n];
        } else if n == |a| + 1 {
          assert all[..n] == a + [outcomes[last]];
        } else {
          assert all[..n] == all;
        }
      }
    }
  }

  lemma OneMoreOutcome(outcomes: seq<Note>)
    requires outcomes != [] && outcomes[|outcomes| - 1] != Death
    requires var init := outcomes[..|outcomes| - 1];
             && Trailing(Annotate(init)) == Trailing(init)
             && RecentDeaths(Annotate(init)) == if Trailing(init) >= MAX_MISSED then 1 else 0
    ensures Trailing(Annotate(outcomes)) == Trailing(outcomes)
    ensures RecentDeaths(Annotate(outcomes)) == if Trailing(outcomes) >= MAX_MISSED then 1 else 0
    ensures RecentDeaths(Annotate(outcomes[..|outcomes| - 1]) + [outcomes[|outcomes| - 1]]) <= 1
  {
    var a := Annotate(outcomes[..|outcomes| - 1]);
    var b := a + [outcomes[|outcomes| - 1]];
    assert b[..|a|] == a && (b + [Death])[..|b|] == b;
  }

  lemma {:induction false} DeathsPileUp(log: seq<Note>, i: nat, j: nat)
    requires i < j < |log| && log[i] == Death && log[j] == Death
    requires Pong !in log[i..j]
    ensures RecentDeaths(log[..j + 1]) >= 2
  {
    HasDeath(log, i, j);
    assert log[..j + 1][..j] == log[..j];
  }

  lemma {:induction false} HasDeath(log: seq<Note>, i: nat, j: nat)
    requires i < j <= |log| && log[i] == Death && Pong !in log[i..j]
    ensures RecentDeaths(log[..j]) >= 1
    decreases j
  {
    assert log[..j][..j - 1] == log[..j - 1];
    assert log[j - 1] in log[i..j];
    if i == j - 1 {
    } else {
      assert log[i..j] == log[i..j - 1] + [log[j - 1]];
      HasDeath(log, i, j - 1);
    }
  }

  lemma {:induction false} StripHasNoDeath(log: seq<Note>)
    ensures Death !in Strip(log)
    decreases |log|
  {
    if log == [] {
    } else {
      StripHasNoDeath(log[..|log| - 1]);
    }
  }

  lemma SettledPong(log: seq<Note>, i: nat, j: nat)
    requires Settled(log) && i < j < |log| && log[i] == Death && log[j] == Death
    ensures Pong in log[i..j]
  {
    StripHasNoDeath(log);
    OneDeathPerOutage(Strip(log));
    assert RecentDeaths(log[..j + 1]) <= 1;
    if Pong !in log[i..j] {
      DeathsPileUp(log, i, j);
    }
  }

  lemma PongBetweenDeaths(log: seq<Note>, i: nat, j: nat)
    requires Settled(log) || Pending(log)
    requires i < j < |log| && log[i] == Death && log[j] == Death
    ensures Pong in log[i..j]
  {
    if Settled(log) {
      SettledPong(log, i, j);
    } else {
      var s := log[..|log| - 1];
      SettledPong(s, i, j);
      var k :| 0 <= k < j - i && s[i..j][k] == Pong;
      assert log[i..j][k] == s[i..j][k];
    }
  }

  // ---- one node's monitor at work ----------------------------------------------------------------

  /** How far a goroutine of pingOne has come. */
  datatype Stage =
    | Spawned
    | Claimed        // marked in flight
    | Waiting        // its channel is registered and the PING is out
    | Answered       // took a PONG from its channel
    | Cleared        // has reset the count
    | Expired        // its timer has fired
    | Counted        // has counted the miss, and there are enough of them
    | Condemning     // has seen the peer alive and is about to mark it dead
    | Leaving        // about to unregister its channel
    | Unregistered   // about to drop the mark
    | Gone

  datatype Thread = Thread(peer: int, stage: Stage)

  /** `owner` and `log` are history: whose mark is in inFlight, and how the pings of a peer ended. */
  datatype State = State(
    maps: Maps,                     // the monitor's own
    alive: set<int>,
    threads: map<int, Thread>,
    full: set<int>,                 // the channels that hold a PONG
    carriers: multiset<int>,        // PONG handlers that have looked up a channel
    owner: map<int, int>,
    log: map<int, seq<Note>>)

  datatype Event =
    | Spawn(t: int, peer: int)
    | Claim(t: int)
    | Register(t: int)
    | TakePong(t: int)
    | Clear(t: int)
    | Revive(t: int)
    | Expire(t: int)
    | CountMiss(t: int)
    | CheckAlive(t: int)
    | Bury(t: int)
    | Cancel(t: int)
    | Unregister(t: int)
    | Unclaim(t: int)
    | FindChannel(peer: int)
    | Deposit(ch: int)

  predicate At(s: State, t: int, stage: Stage) {
    t in s.threads && s.threads[t].stage == stage
  }

  predicate Enabled(s: State, ev: Event) {
    match ev
    case Spawn(t, _) => t !in s.threads
    case Claim(t) => At(s, t, Spawned)
    case Register(t) => At(s, t, Claimed)
    case TakePong(t) => At(s, t, Waiting) && t in s.full
    case Clear(t) => At(s, t, Answered)
    case Revive(t) => At(s, t, Cleared)
    case Expire(t) => At(s, t, Waiting)
    case CountMiss(t) => At(s, t, Expired)
    case CheckAlive(t) => At(s, t, Counted)
    case Bury(t) => At(s, t, Condemning)
    case Cancel(t) => At(s, t, Waiting)
    case Unregister(t) => At(s, t, Leaving)
    case Unclaim(t) => At(s, t, Unregistered)
    case FindChannel(p) => p in s.maps.pongChs
    case Deposit(ch) => ch in s.carriers
  }

  function LogOf(s: State, p: int): seq<Note> {
    if p in s.log then s.log[p] else []
  }

  function Noted(s: State, p: int, n: Note): map<int, seq<Note>> {
    s.log[p := LogOf(s, p) + [n]]
  }

  function Move(s: State, t: int, stage: Stage): State
    requires t in s.threads
  {
    s.(threads := s.threads[t := s.threads[t].(stage := stage)])
  }

  function Next(s: State, ev: Event): State
    requires Enabled(s, ev)
  {
    match ev
    case Spawn(t, p) => s.(threads := s.threads[t := Thread(p, Spawned)])
    case Claim(t) =>
      var p := s.threads[t].peer;
      if p in s.maps.inFlight then Move(s, t, Gone)
      else Move(s, t, Claimed).(maps := Claiming(s.maps, p), owner := s.owner[p := t])
    case Register(t) => Move(s, t, Waiting).(maps := Registering(s.maps, s.threads[t].peer, t))
    case TakePong(t) => Move(s, t, Answered).(full := s.full - {t}, log := Noted(s, s.threads[t].peer, Pong))
    case Clear(t) => Move(s, t, Cleared).(maps := Clearing(s.maps, s.threads[t].peer))
    case Revive(t) => Move(s, t, Leaving).(alive := s.alive + {s.threads[t].peer})
    case Expire(t) => Move(s, t, Expired).(log := Noted(s, s.threads[t].peer, Miss))
    case CountMiss(t) =>
      var p := s.threads[t].peer;
      var maps := CountingMiss(s.maps, p);
      Move(s, t, if CountOf(maps.missed, p) >= MAX_MISSED then Counted else Leaving).(maps := maps)
    case CheckAlive(t) => Move(s, t, if s.threads[t].peer in s.alive then Condemning else Leaving)
    case Bury(t) =>
      var p := s.threads[t].peer;
      Move(s, t, Leaving).(alive := s.alive - {p}, log := Noted(s, p, Death))
    case Cancel(t) => Move(s, t, Leaving)
    case Unregister(t) => Move(s, t, Unregistered).(maps := Unregistering(s.maps, s.threads[t].peer))
    case Unclaim(t) =>
      var p := s.threads[t].peer;
      Move(s, t, Gone).(maps := Unclaiming(s.maps, p), owner := s.owner - {p})
    case FindChannel(p) => s.(carriers := s.carriers + multiset{s.maps.pongChs[p]})
    case Deposit(ch) => s.(carriers := s.carriers - multiset{ch}, full := s.full + {ch})
  }

  predicate Legal(s: State, evs: seq<Event>)
    decreases |evs|
  {
    evs == [] || (Enabled(s, evs[0]) && Legal(Next(s, evs[0]), evs[1..]))
  }

  function Run(s: State, evs: seq<Event>): State
    requires Legal(s, evs)
    decreases |evs|
  {
    if evs == [] then s else Run(Next(s, evs[0]), evs[1..])
  }

  /** At the start every configured node is taken for alive. */
  function Start(nodes: set<int>): State {
    State(Maps(map[], map[], {}), nodes, map[], {}, multiset{}, map[], map[])
  }

  // ---- the invariant -----------------------------------------------------------------------------

  predicate Active(stage: Stage) {
    stage != Spawned && stage != Gone
  }

  /** Whoever works for a peer owns its mark; that is what leaves one of them. */
  ghost predicate ThreadOk(s: State, t: int)
    requires t in s.threads
  {
    Active(s.threads[t].stage) ==> s.threads[t].peer in s.owner && s.owner[s.threads[t].peer] == t
  }

  ghost predicate OwnerOk(s: State, p: int) {
    && (p in s.owner <==> p in s.maps.inFlight)
    && (p in s.owner ==>
          s.owner[p] in s.threads && s.threads[s.owner[p]].peer == p && Active(s.threads[s.owner[p]].stage))
  }

  /** What the log of a peer says: the misses in a row, and whether a death is still to be noted. */
  datatype Gist = Gist(trailing: nat, settled: bool, pending: bool)

  function GistOf(log: seq<Note>): Gist {
    Gist(Trailing(log), Settled(log), Pending(log))
  }

  /** The count is the misses in a row, death is three of them, and all deaths so far are as they should. */
  predicate Rest(missed: nat, alive: bool, log: Gist) {
    missed == log.trailing && (alive <==> missed < MAX_MISSED) && log.settled
  }

  predicate StageOk(stage: Stage, missed: nat, alive: bool, log: Gist) {
    match stage
    case Answered => log.trailing == 0 && log.settled
    case Cleared => missed == 0 && log.trailing == 0 && log.settled
    case Expired => log.trailing == missed + 1 && (alive <==> missed < MAX_MISSED) && log.pending
    case Counted => log.trailing == missed >= MAX_MISSED && (alive <==> missed == MAX_MISSED) && log.pending
    case Condemning => log.trailing == missed == MAX_MISSED && alive && log.pending
    case _ => Rest(missed, alive, log)
  }

  predicate HasChannel(stage: Stage) {
    stage == Waiting || stage == Answered || stage == Cleared || stage == Expired || stage == Counted
    || stage == Condemning || stage == Leaving
  }

  /** All that concerns one peer. */
  datatype View = View(missed: nat, alive: bool, log: Gist, ch: Option<int>, owner: Option<int>, stage: Stage)

  ghost function ViewOf(s: State, p: int): View
    requires OwnerOk(s, p)
  {
    View(CountOf(s.maps.missed, p), p in s.alive, GistOf(LogOf(s, p)),
         if p in s.maps.pongChs then Some(s.maps.pongChs[p]) else None,
         if p in s.owner then Some(s.owner[p]) else None,
         if p in s.owner then s.threads[s.owner[p]].stage else Gone)
  }

  predicate ViewOk(v: View) {
    && StageOk(v.stage, v.missed, v.alive, v.log)
    && v.ch == (if HasChannel(v.stage) then v.owner else None)
    && (v.owner.None? ==> v.stage == Gone)
  }

  ghost predicate PeerOk(s: State, p: int)
    requires OwnerOk(s, p)
  {
    ViewOk(ViewOf(s, p))
  }

  ghost predicate Inv(nodes: set<int>, s: State) {
    && (forall t {:trigger ThreadOk(s, t)} :: t in s.threads ==> ThreadOk(s, t) && s.threads[t].peer in nodes)
    && (forall p {:trigger OwnerOk(s, p)} :: OwnerOk(s, p))
    && (forall p {:trigger PeerOk(s, p)} :: p in nodes ==> PeerOk(s, p))
  }

  // ---- every step keeps it -----------------------------------------------------------------------

  /** The goroutine that takes a step, if a goroutine does. */
  function Mover(ev: Event): Option<int> {
    match ev
    case Spawn(_, _) => None
    case FindChannel(_) => None
    case Deposit(_) => None
    case _ => Some(ev.t)
  }

  lemma ThreadsKept(nodes: set<int>, s: State, ev: Event)
    requires Inv(nodes, s) && Enabled(s, ev) && (ev.Spawn? ==> ev.peer in nodes)
    ensures var d := Next(s, ev);
            forall t {:trigger ThreadOk(d, t)} :: t in d.threads ==> ThreadOk(d, t) && d.threads[t].peer in nodes
  {
    var d := Next(s, ev);
    if Mover(ev).Some? {
      assert ThreadOk(s, Mover(ev).value);
      assert OwnerOk(s, s.threads[Mover(ev).value].peer);
    }
    forall t | t in d.threads ensures ThreadOk(d, t) && d.threads[t].peer in nodes {
      assert t in s.threads ==> ThreadOk(s, t) && s.threads[t].peer in nodes;
      assert t in s.threads ==> OwnerOk(s, s.threads[t].peer);
    }
  }

  /** Facts about the goroutine that moves. */
  ghost predicate MoverOk(s: State, ev: Event) {
    Mover(ev).Some? ==>
      && Mover(ev).value in s.threads && ThreadOk(s, Mover(ev).value)
      && OwnerOk(s, s.threads[Mover(ev).value].peer)
  }

  lemma MoverIsOk(nodes: set<int>, s: State, ev: Event)
    requires Inv(nodes, s) && Enabled(s, ev)
    ensures MoverOk(s, ev)
  {
    if Mover(ev).Some? {
      assert ThreadOk(s, Mover(ev).value);
      assert OwnerOk(s, s.threads[Mover(ev).value].peer);
    }
  }

  lemma OwnersKept(s: State, ev: Event, p: int)
    requires Enabled(s, ev) && MoverOk(s, ev) && OwnerOk(s, p)
    ensures OwnerOk(Next(s, ev), p)
  {
  }

  /** A step changes nothing of a peer that it is not about. */
  lemma OtherPeer(s: State, ev: Event, p: int)
    requires Enabled(s, ev) && OwnerOk(s, p)
    requires Mover(ev).Some? ==> Mover(ev).value in s.threads && s.threads[Mover(ev).value].peer != p
    ensures OwnerOk(Next(s, ev), p) && ViewOf(Next(s, ev), p) == ViewOf(s, p)
  {
    OtherOwner(s, ev, p);
    OtherFields(s, ev, p);
  }

  lemma OtherOwner(s: State, ev: Event, p: int)
    requires Enabled(s, ev) && OwnerOk(s, p)
    requires Mover(ev).Some? ==> Mover(ev).value in s.threads && s.threads[Mover(ev).value].peer != p
    ensures var d := Next(s, ev);
            && OwnerOk(d, p) && (p in d.owner <==> p in s.owner)
            && (p in s.owner ==> d.owner[p] == s.owner[p] && d.threads[d.owner[p]] == s.threads[s.owner[p]])
  {
  }

  lemma OtherFields(s: State, ev: Event, p: int)
    requires Enabled(s, ev)
    requires Mover(ev).Some? ==> Mover(ev).value in s.threads && s.threads[Mover(ev).value].peer != p
    ensures var d := Next(s, ev);
            && CountOf(d.maps.missed, p) == CountOf(s.maps.missed, p) && LogOf(d, p) == LogOf(s, p)
            && (p in d.alive <==> p in s.alive) && (p in d.maps.pongChs <==> p in s.maps.pongChs)
            && (p in s.maps.pongChs ==> d.maps.pongChs[p] == s.maps.pongChs[p])
  {
  }

  /** What the step of goroutine t makes of its own peer; the log is then as given. */
  function OwnStep(v: View, ev: Event, more: Gist): View {
    match ev
    case Claim(t) => if v.owner.Some? then v else v.(owner := Some(t), stage := Claimed)
    case Register(t) => v.(ch := Some(t), stage := Waiting)
    case TakePong(_) => v.(log := more, stage := Answered)
    case Clear(_) => v.(missed := 0, stage := Cleared)
    case Revive(_) => v.(alive := true, stage := Leaving)
    case Expire(_) => v.(log := more, stage := Expired)
    case CountMiss(_) => v.(missed := v.missed + 1, stage := if v.missed + 1 >= MAX_MISSED then Counted else Leaving)
    case CheckAlive(_) => v.(stage := if v.alive then Condemning else Leaving)
    case Bury(_) => v.(alive := false, log := more, stage := Leaving)
    case Cancel(_) => v.(stage := Leaving)
    case Unregister(_) => v.(ch := None, stage := Unregistered)
    case Unclaim(_) => v.(owner := None, stage := Gone)
    case _ => v
  }

  function NoteOf(ev: Event): seq<Note> {
    match ev
    case TakePong(_) => [Pong]
    case Expire(_) => [Miss]
    case Bury(_) => [Death]
    case _ => []
  }

  lemma OwnView(s: State, ev: Event)
    requires MoverOk(s, ev) && Enabled(s, ev) && Mover(ev).Some?
    ensures var p := s.threads[Mover(ev).value].peer;
            && OwnerOk(Next(s, ev), p) && OwnerOk(s, p)
            && LogOf(Next(s, ev), p) == LogOf(s, p) + NoteOf(ev)
            && ViewOf(Next(s, ev), p) == OwnStep(ViewOf(s, p), ev, ViewOf(Next(s, ev), p).log)
            && (!ev.Claim? ==>
                  ViewOf(s, p).owner == Mover(ev) && ViewOf(s, p).stage == s.threads[Mover(ev).value].stage)
  {
    var t := Mover(ev).value;
    var p := s.threads[t].peer;
    OwnersKept(s, ev, p);
    OwnLog(s, ev);
    OwnFields(s, ev);
  }

  lemma OwnFields(s: State, ev: Event)
    requires Enabled(s, ev) && Mover(ev).Some? && MoverOk(s, ev)
    requires OwnerOk(Next(s, ev), s.threads[Mover(ev).value].peer)
    ensures var p := s.threads[Mover(ev).value].peer;
            var v := ViewOf(Next(s, ev), p);
            v == OwnStep(ViewOf(s, p), ev, v.log)
  {
  }

  lemma OwnLog(s: State, ev: Event)
    requires Enabled(s, ev) && Mover(ev).Some?
    ensures var p := s.threads[Mover(ev).value].peer;
            LogOf(Next(s, ev), p) == LogOf(s, p) + NoteOf(ev)
  {
  }

  /** What one more note makes of the gist of a log. */
  ghost predicate GistStep(g: Gist, note: seq<Note>, h: Gist) {
    && (note == [Pong] && g.settled ==> h.settled && h.trailing == 0)
    && (note == [Miss] && g.settled ==> h.pending && h.trailing == g.trailing + 1)
    && (note == [Death] && g.pending && g.trailing == MAX_MISSED ==> h.settled && h.trailing == g.trailing)
    && (g.pending && g.trailing != MAX_MISSED ==> g.settled)
  }

  lemma NotedGist(log: seq<Note>, ev: Event)
    ensures GistStep(GistOf(log), NoteOf(ev), GistOf(log + NoteOf(ev)))
  {
    if Settled(log) {
      PongSettles(log);
      MissPends(log);
    }
    if Pending(log) {
      PendingSettles(log);
    }
  }

  /** The steps of the owner, in the order of their stages, keep a peer's bookkeeping. */
  lemma OwnStepOk(v: View, ev: Event, stage: Stage, more: Gist)
    requires ViewOk(v) && Mover(ev).Some? && GistStep(v.log, NoteOf(ev), more)
    requires !ev.Claim? ==> v.owner == Mover(ev) && v.stage == stage
    requires match ev
             case Register(_) => stage == Claimed
             case TakePong(_) => stage == Waiting
             case Clear(_) => stage == Answered
             case Revive(_) => stage == Cleared
             case Expire(_) => stage == Waiting
             case CountMiss(_) => stage == Expired
             case CheckAlive(_) => stage == Counted
             case Bury(_) => stage == Condemning
             case Cancel(_) => stage == Waiting
             case Unregister(_) => stage == Leaving
             case Unclaim(_) => stage == Unregistered
             case _ => true
    ensures ViewOk(OwnStep(v, ev, more))
  {
  }

  lemma StepKeeps(nodes: set<int>, s: State, ev: Event)
    requires Inv(nodes, s) && Enabled(s, ev) && (ev.Spawn? ==> ev.peer in nodes)
    ensures Inv(nodes, Next(s, ev))
  {
    var d := Next(s, ev);
    ThreadsKept(nodes, s, ev);
    MoverIsOk(nodes, s, ev);
    forall p ensures OwnerOk(d, p) {
      assert OwnerOk(s, p);
      OwnersKept(s, ev, p);
    }
    forall p | p in nodes ensures PeerOk(d, p) {
      if Mover(ev).Some? && s.threads[Mover(ev).value].peer == p {
        OwnView(s, ev);
        assert PeerOk(s, p);
        NotedGist(LogOf(s, p), ev);
        OwnStepOk(ViewOf(s, p), ev, s.threads[Mover(ev).value].stage, ViewOf(d, p).log);
      } else {
        assert OwnerOk(s, p) && PeerOk(s, p);
        OtherPeer(s, ev, p);
      }
    }
  }

  /** The ticker spawns goroutines for configured peers only. */
  predicate Configured(nodes: set<int>, evs: seq<Event>) {
    forall i :: 0 <= i < |evs| && evs[i].Spawn? ==> evs[i].peer in nodes
  }

  lemma {:induction false} InvAlways(nodes: set<int>, s: State, evs: seq<Event>)
    requires Inv(nodes, s) && Legal(s, evs) && Configured(nodes, evs)
    ensures Inv(nodes, Run(s, evs))
    decreases |evs|
  {
    if evs == [] {
    } else {
      StepKeeps(nodes, s, evs[0]);
      InvAlways(nodes, Next(s, evs[0]), evs[1..]);
    }
  }

  // ---- what follows for every run ----------------------------------------------------------------

  /** At most one ping of a peer is in progress, and a registered channel is that ping's. */
  lemma OnePingPerPeer(nodes: set<int>, evs: seq<Event>, t: int, u: int)
    requires Legal(Start(nodes), evs) && Configured(nodes, evs)
    requires var s := Run(Start(nodes), evs);
             && t in s.threads && u in s.threads && s.threads[t].peer == s.threads[u].peer
             && Active(s.threads[t].stage) && Active(s.threads[u].stage)
    ensures var s := Run(Start(nodes), evs);
            t == u && (s.threads[t].peer in s.maps.pongChs ==> s.maps.pongChs[s.threads[t].peer] == t)
  {
    InvAlways(nodes, Start(nodes), evs);
    var s := Run(Start(nodes), evs);
    assert ThreadOk(s, t) && ThreadOk(s, u);
    assert OwnerOk(s, s.threads[t].peer) && PeerOk(s, s.threads[t].peer);
  }

  ghost predicate Resting(s: State, p: int) {
    forall t {:trigger s.threads[t]} :: t in s.threads && s.threads[t].peer == p ==> !Active(s.threads[t].stage)
  }

  lemma OwnerIsBusy(s: State, p: int)
    requires OwnerOk(s, p) && p in s.owner
    ensures !Resting(s, p)
  {
    var t: int := s.owner[p];
    assert t in s.threads && s.threads[t].peer == p && Active(s.threads[t].stage);
  }

  /** Between pings the count is the number of misses since the last PONG that was taken, the peer is alive
      exactly below three of them, and deaths are where the simple detector would have put them. */
  lemma ExactAtRest(nodes: set<int>, evs: seq<Event>, p: int)
    requires Legal(Start(nodes), evs) && Configured(nodes, evs) && p in nodes
    requires Resting(Run(Start(nodes), evs), p)
    ensures var s := Run(Start(nodes), evs);
            && CountOf(s.maps.missed, p) == Trailing(LogOf(s, p))
            && (p in s.alive <==> CountOf(s.maps.missed, p) < MAX_MISSED)
            && LogOf(s, p) == Annotate(Strip(LogOf(s, p)))
            && p !in s.maps.pongChs
  {
    InvAlways(nodes, Start(nodes), evs);
    var s := Run(Start(nodes), evs);
    assert OwnerOk(s, p) && PeerOk(s, p);
    if p in s.owner {
      OwnerIsBusy(s, p);
    }
    assert Rest(CountOf(s.maps.missed, p), p in s.alive, GistOf(LogOf(s, p)));
  }

  /** Two deaths of one peer always have a PONG between them, at whatever moment one looks. */
  lemma OneDeathBetweenPongs(nodes: set<int>, evs: seq<Event>, p: int, i: nat, j: nat)
    requires Legal(Start(nodes), evs) && Configured(nodes, evs) && p in nodes
    requires var log := LogOf(Run(Start(nodes), evs), p);
             i < j < |log| && log[i] == Death && log[j] == Death
    ensures Pong in LogOf(Run(Start(nodes), evs), p)[i..j]
  {
    InvAlways(nodes, Start(nodes), evs);
    var s := Run(Start(nodes), evs);
    assert OwnerOk(s, p) && PeerOk(s, p);
    assert GistOf(LogOf(s, p)).settled || GistOf(LogOf(s, p)).pending;
    PongBetweenDeaths(LogOf(s, p), i, j);
  }

  // ---- what becomes of a ping that waits -------------------------------------------------------------

  /** The goroutine whose turn it is, at a moment of a run. */
  ghost predicate Pinging(nodes: set<int>, evs: seq<Event>, t: int) {
    Legal(Start(nodes), evs) && Configured(nodes, evs) && At(Run(Start(nodes), evs), t, Waiting)
  }

  lemma WaitingIsRegistered(nodes: set<int>, evs: seq<Event>, t: int)
    requires Pinging(nodes, evs, t)
    ensures var s := Run(Start(nodes), evs);
            var p := s.threads[t].peer;
            && Inv(nodes, s) && p in nodes && OwnerOk(s, p) && PeerOk(s, p)
            && p in s.owner && s.owner[p] == t && p in s.maps.pongChs && s.maps.pongChs[p] == t
  {
    InvAlways(nodes, Start(nodes), evs);
    var s := Run(Start(nodes), evs);
    assert ThreadOk(s, t);
    assert OwnerOk(s, s.threads[t].peer) && PeerOk(s, s.threads[t].peer);
  }

  /** A ping of a peer that is not being pinged goes on to wait for its PONG in a channel of its own; one of a peer
      that is being pinged ends at once without a trace. */
  lemma PingGoesOnIff(s: State, t: int, p: int)
    requires t !in s.threads
    ensures Enabled(s, Spawn(t, p)) && Enabled(Next(s, Spawn(t, p)), Claim(t))
    ensures var d := Next(Next(s, Spawn(t, p)), Claim(t));
            && (p in s.maps.inFlight ==> At(d, t, Gone) && d == s.(threads := d.threads))
            && (p !in s.maps.inFlight ==>
                  && Enabled(d, Register(t))
                  && var e := Next(d, Register(t));
                     && At(e, t, Waiting) && e.threads[t].peer == p
                     && p in e.maps.pongChs && e.maps.pongChs[p] == t && p in e.maps.inFlight)
  {
  }

  /** A PONG handled while a ping of its sender waits gets into the channel that this ping reads. */
  lemma PongArrives(nodes: set<int>, evs: seq<Event>, t: int)
    requires Pinging(nodes, evs, t)
    ensures var s := Run(Start(nodes), evs);
            var p := s.threads[t].peer;
            && Enabled(s, FindChannel(p)) && Enabled(Next(s, FindChannel(p)), Deposit(t))
            && var d := Next(Next(s, FindChannel(p)), Deposit(t));
               t in d.full && d.threads == s.threads && d.maps == s.maps && d.alive == s.alive && d.log == s.log
  {
    WaitingIsRegistered(nodes, evs, t);
  }

  /** And a ping that takes a PONG makes its peer alive, whatever was thought of it, and its count zero. */
  lemma PongRevives(s: State, t: int)
    requires At(s, t, Waiting) && t in s.full
    ensures var p := s.threads[t].peer;
            var d := Next(Next(Next(s, TakePong(t)), Clear(t)), Revive(t));
            && p in d.alive && CountOf(d.maps.missed, p) == 0 && At(d, t, Leaving) && t !in d.full
            && LogOf(d, p) == LogOf(s, p) + [Pong]
  {
    var s1 := Next(s, TakePong(t));
    assert At(s1, t, Answered);
    assert At(Next(s1, Clear(t)), t, Cleared);
  }

  /** A ping that times out: the third miss in a row of a peer that is alive marks it dead; fewer do not. */
  lemma ThirdMissKills(nodes: set<int>, evs: seq<Event>, t: int)
    requires Pinging(nodes, evs, t)
    requires var s := Run(Start(nodes), evs); s.threads[t].peer in s.alive
    ensures var s := Run(Start(nodes), evs);
            var p := s.threads[t].peer;
            var d := Next(Next(s, Expire(t)), CountMiss(t));
            && CountOf(s.maps.missed, p) <= 2
            && p in d.alive && CountOf(d.maps.missed, p) == CountOf(s.maps.missed, p) + 1
            && (CountOf(s.maps.missed, p) < 2 ==> At(d, t, Leaving))
            && (CountOf(s.maps.missed, p) == 2 ==>
                  var e := Next(Next(d, CheckAlive(t)), Bury(t));
                  p !in e.alive && LogOf(e, p) == LogOf(s, p) + [Miss, Death] && At(e, t, Leaving))
  {
    WaitingIsRegistered(nodes, evs, t);
    var s := Run(Start(nodes), evs);
    var p := s.threads[t].peer;
    assert ViewOf(s, p).stage == Waiting;
    assert Rest(CountOf(s.maps.missed, p), p in s.alive, GistOf(LogOf(s, p)));
    if CountOf(s.maps.missed, p) == 2 {
      var d := Next(Next(s, Expire(t)), CountMiss(t));
      var e := Next(Next(d, CheckAlive(t)), Bury(t));
      assert LogOf(e, p) == LogOf(s, p) + [Miss] + [Death];
    }
  }

  /** A ping that is cancelled counts for nothing. */
  lemma CancelCountsNothing(s: State, t: int)
    requires At(s, t, Waiting)
    ensures Enabled(s, Cancel(t))
    ensures Next(s, Cancel(t)) == s.(threads := s.threads[t := Thread(s.threads[t].peer, Leaving)])
  {
  }

  /** How many steps a goroutine has before it at most. */
  function StepsLeft(stage: Stage): nat {
    match stage
    case Gone => 0
    case Unregistered => 1
    case Leaving => 2
    case Condemning => 3
    case Cleared => 3
    case Counted => 4
    case Answered => 4
    case Expired => 5
    case Waiting => 6
    case Claimed => 7
    case Spawned => 8
  }

  /** Its next step when no PONG comes. */
  function NextOf(t: int, stage: Stage): Event {
    match stage
    case Spawned => Claim(t)
    case Claimed => Register(t)
    case Waiting => Expire(t)
    case Answered => Clear(t)
    case Cleared => Revive(t)
    case Expired => CountMiss(t)
    case Counted => CheckAlive(t)
    case Condemning => Bury(t)
    case Leaving => Unregister(t)
    case Unregistered => Unclaim(t)
    case Gone => Spawn(t, 0)
  }

  lemma NextStepOf(s: State, t: int)
    requires t in s.threads && s.threads[t].stage != Gone
    ensures var ev := NextOf(t, s.threads[t].stage);
            && Enabled(s, ev)
            && var d := Next(s, ev);
               t in d.threads && d.threads[t].peer == s.threads[t].peer
               && StepsLeft(d.threads[t].stage) < StepsLeft(s.threads[t].stage)
  {
  }

  /** No ping gets stuck: a goroutine can always go on by itself, whatever the others do, and is gone after
      eight steps of its own at most. */
  lemma {:induction false} PingEnds(s: State, t: int) returns (evs: seq<Event>)
    requires t in s.threads
    ensures Legal(s, evs) && At(Run(s, evs), t, Gone) && |evs| <= StepsLeft(s.threads[t].stage) <= 8
    ensures forall i :: 0 <= i < |evs| ==> Mover(evs[i]) == Some(t)
    decreases StepsLeft(s.threads[t].stage)
  {
    if s.threads[t].stage == Gone {
      evs := [];
    } else {
      var ev := NextOf(t, s.threads[t].stage);
      NextStepOf(s, t);
      var rest := PingEnds(Next(s, ev), t);
      evs := [ev] + rest;
      assert evs[1..] == rest;
    }
  }

  /** A ping that leaves takes its channel and its mark with it. */
  lemma LeavingClears(s: State, t: int)
    requires At(s, t, Leaving)
    ensures Enabled(s, Unregister(t)) && Enabled(Next(s, Unregister(t)), Unclaim(t))
    ensures var p := s.threads[t].peer;
            var d := Next(Next(s, Unregister(t)), Unclaim(t));
            && At(d, t, Gone) && p !in d.maps.pongChs && p !in d.maps.inFlight
            && d.alive == s.alive && d.log == s.log && d.maps.missed == s.maps.missed
  {
  }
}
