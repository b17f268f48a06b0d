/** The reverse Bully election (internal/election/election.go): the node with the lowest ID wins.

    An engine has a flag and the timer it armed last.  What the source runs in goroutines and timer
    callbacks is pending work here: one item for each point at which such a thread can wait for a mutex,
    and one for each message in flight.  Timers are told apart by a number, because a timer that is no
    longer the engine's last one can still fire. */
module Election {
  import opened Common
  import opened NodeState

  datatype Elec = Elec(running: bool, okTimer: Option<nat>)

  const QUIET := Elec(false, None)

  // ---- what each section under the mutex makes of an engine ------------------------------------------

  function Entered(e: Elec): Elec {
    e.(running := true)
  }

  /** The timer armed before is forgotten, not stopped. */
  function Armed(e: Elec, timer: nat): Elec {
    e.(okTimer := Some(timer))
  }

  function Declared(e: Elec): Elec {
    e.(running := false)
  }

  function SteppedDown(e: Elec): Elec {
    QUIET
  }

  // ---- the engine object -------------------------------------------------------------------------

  function LowerOf(peers: seq<Node>, self: int): seq<Node> {
    if peers == [] then []
    else (if peers[0].id < self then [peers[0]] else []) + LowerOf(peers[1..], self)
  }

  lemma {:induction false} LowerExtends(peers: seq<Node>, self: int, i: nat)
    requires i < |peers|
    ensures LowerOf(peers[..i + 1], self) == LowerOf(peers[..i], self) + if peers[i].id < self then [peers[i]] else []
    decreases i
  {
    if i == 0 {
      assert peers[..1] == [peers[0]] && peers[..1][1..] == [] && peers[..0] == [];
    } else {
      LowerExtends(peers[1..], self, i - 1);
      assert peers[..i + 1][1..] == peers[1..][..i] && peers[..i][1..] == peers[1..][..i - 1];
    }
  }

  lemma {:induction false} LowerExact(peers: seq<Node>, self: int)
    ensures forall n :: n in LowerOf(peers, self) <==> n in peers && n.id < self
    decreases |peers|
  {
    if peers != [] {
      LowerExact(peers[1..], self);
    }
  }

  class Engine {
    const self: int
    const state: State
    var running: bool
    var okTimer: Option<nat>

    constructor (self: int, state: State)
      ensures this.self == self && this.state == state && View() == QUIET
    {
      this.self, this.state := self, state;
      running, okTimer := false, None;
    }

    function View(): Elec
      reads this
    {
      Elec(running, okTimer)
    }

    /** First critical section of StartElection: only one election at a time gets past it. */
    method Enter() returns (go: bool)
      modifies this`running
      ensures go == !old(running) && View() == Entered(old(View()))
      ensures running && okTimer == old(okTimer)
    {
      go := !running;
      running := true;
    }

    /** The nodes to challenge; nobody left means victory. */
    method LowerNodes() returns (out: seq<Node>)
      ensures out == LowerOf(AlivePeersOf(state.all, state.self.id, state.alive), self)
    {
      var peers := state.AlivePeers();
      out := [];
      for i := 0 to |peers|
        invariant out == LowerOf(peers[..i], self)
      {
        LowerExtends(peers, self, i);
        if peers[i].id < self {
          out := out + [peers[i]];
        }
      }
      assert peers[..|peers|] == peers;
    }

    /** Last critical section of StartElection; `timer` is the timer just created. */
    method ArmTimer(timer: nat)
      modifies this`okTimer
      ensures View() == Armed(old(View()), timer)
      ensures okTimer == Some(timer) && running == old(running)
    {
      okTimer := Some(timer);
    }

    /** The timer's callback goes on to declareVictory only while an election is running. */
    method TimerFires() returns (declare: bool)
      ensures declare == running
    {
      declare := running;
    }

    /** declareVictory: the master changes at once; the caller stops the timer and broadcasts. */
    method DeclareVictory() returns (stop: Option<nat>)
      modifies this`running, state`masterID
      ensures stop == old(okTimer) && View() == Declared(old(View()))
      ensures !running && okTimer == old(okTimer)
      ensures state.masterID == self
    {
      running := false;
      stop := okTimer;
      state.SetMasterID(self);
    }

    /** An ELECTION of a candidate with a higher ID is answered and starts an election here. */
    method HandleElection(candidate: int, from: string) returns (reply: Option<Node>, start: bool)
      ensures start == (self < candidate)
      ensures reply.Some? ==> start && reply.value in state.all && reply.value.name == from
      ensures start && reply.None? ==> forall n :: n in state.all ==> n.name != from
    {
      reply, start := None, false;
      if self >= candidate {
        return;
      }
      reply := state.NodeByName(from);
      start := true;
    }

    method HandleElectionOK() returns (stop: Option<nat>)
      modifies this
      ensures stop == old(okTimer) && View() == SteppedDown(old(View()))
      ensures !running && okTimer == None
    {
      running := false;
      stop := okTimer;
      okTimer := None;
    }

    method HandleCoordinator(master: int)
      modifies state`masterID
      ensures state.masterID == master
    {
      state.SetMasterID(master);
    }
  }
}
