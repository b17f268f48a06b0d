/** What single steps of the election do at one node, and that the engine object does the same
    (internal/election/election.go). */
module ElectionSteps {
  import opened Common
  import opened Election
  import opened ElectionCluster
  import NodeState

  // ---- one step at one node ------------------------------------------------------------------------

  /** Everything is as it was but node n's engine, its master and the pending work. */
  ghost predicate OnlyAt(c: Cluster, d: Cluster, n: int) {
    && d.ids == c.ids && d.live == c.live
    && n in c.elec && n in c.master && n in d.elec && n in d.master
    && d.elec == c.elec[n := d.elec[n]] && d.master == c.master[n := d.master[n]]
  }

  predicate ChallengeBy(item: Item, n: int) {
    item.ElectionMsg? && item.n == n
  }

  predicate AnnouncementBy(item: Item, n: int) {
    item.CoordinatorMsg? && item.n == n
  }

  predicate TimerOf(item: Item, n: int) {
    item.Timer? && item.n == n
  }

  /** A StartElection goes on if and only if no election is running at its node; if one is, nothing is left of
      it and nothing else changes. */
  lemma BeginStartsIff(c: Cluster, n: int)
    requires Enabled(c, Begin(n))
    ensures var d := Next(c, Begin(n));
            && d.pool[Begun(n)] == c.pool[Begun(n)] + (if c.elec[n].running then 0 else 1)
            && (forall item :: item != Begun(n) && item != Start(n) ==> d.pool[item] == c.pool[item])
            && d.pool[Start(n)] == c.pool[Start(n)] - 1
            && OnlyAt(c, d, n) && d.elec[n].running && d.elec[n].okTimer == c.elec[n].okTimer
            && d.master == c.master && d.victors == c.victors && d.nextTimer == c.nextTimer
            && (c.elec[n].running ==> d == c.(pool := c.pool - multiset{Start(n)}))
  {
    var d := Next(c, Begin(n));
    if c.elec[n].running {
      assert c.elec[n := c.elec[n]] == c.elec;
      assert Entered(c.elec[n]) == c.elec[n];
      assert d.pool == c.pool - multiset{Start(n)};
    }
  }

  lemma OneChallengeEach(n: int, to: set<int>)
    ensures forall x :: Challenges(n, to)[ElectionMsg(n, x)] == if x in to then 1 else 0
    ensures forall item :: !ChallengeBy(item, n) ==> Challenges(n, to)[item] == 0
  {
  }

  lemma OneAnnouncementEach(n: int, to: set<int>)
    ensures forall x :: Announcements(n, to)[CoordinatorMsg(n, x)] == if x in to then 1 else 0
    ensures forall item :: !AnnouncementBy(item, n) ==> Announcements(n, to)[item] == 0
  {
  }

  lemma SendsPool(c: Cluster, n: int, lower: set<int>, sent: set<int>)
    requires Enabled(c, Send(n, lower, sent))
    ensures var d := Next(c, Send(n, lower, sent));
            && d == c.(pool := d.pool)
            && d.pool == c.pool - multiset{Begun(n)} + Challenges(n, sent)
                         + multiset{if lower == {} then Declaring(n) else Sent(n)}
  {
    if lower == {} {
      assert sent == {} && Challenges(n, sent) == multiset{};
    }
  }

  /** An election sends one ELECTION to each node it can reach of those to challenge, and goes on to arm its
      timer; with nobody to challenge it goes on to declare victory.  No other work comes or goes. */
  lemma SendChallengesOnce(c: Cluster, n: int, lower: set<int>, sent: set<int>, item: Item)
    requires Enabled(c, Send(n, lower, sent))
    ensures var d := Next(c, Send(n, lower, sent));
            && d == c.(pool := d.pool)
            && d.pool[item] == c.pool[item] - (if item == Begun(n) then 1 else 0)
                               + (if ChallengeBy(item, n) && item.to in sent then 1 else 0)
                               + (if item == Sent(n) && lower != {} then 1 else 0)
                               + (if item == Declaring(n) && lower == {} then 1 else 0)
  {
    SendsPool(c, n, lower, sent);
    OneChallengeEach(n, sent);
  }

  /** The victor takes itself for master and tells each node it can reach, once; no other work comes or goes. */
  lemma AnnounceTellsOnce(c: Cluster, n: int, sent: set<int>, item: Item)
    requires Enabled(c, Announce(n, sent))
    ensures var d := Next(c, Announce(n, sent));
            && d.pool[item] == c.pool[item] - (if item == Announcing(n) then 1 else 0)
                               + (if AnnouncementBy(item, n) && item.to in sent then 1 else 0)
            && OnlyAt(c, d, n) && d.master[n] == n && d.elec == c.elec && d.victors == c.victors
  {
    OneAnnouncementEach(n, sent);
    var d := Next(c, Announce(n, sent));
    assert d.pool == c.pool - multiset{Announcing(n)} + Announcements(n, sent);
    assert d.elec[n := d.elec[n]] == d.elec;
  }

  /** A challenge by a higher node is answered, when the answer can be sent, and starts an election here;
      any other challenge does nothing. */
  lemma ChallengeIsTakenUpIff(c: Cluster, from: int, n: int, replied: bool)
    requires Enabled(c, GetElection(from, n, replied))
    ensures var d := Next(c, GetElection(from, n, replied));
            && d.pool[Start(n)] == c.pool[Start(n)] + (if n < from then 1 else 0)
            && d.pool[OkMsg(n, from)] == c.pool[OkMsg(n, from)] + (if n < from && replied then 1 else 0)
            && d.pool[ElectionMsg(from, n)] == c.pool[ElectionMsg(from, n)] - 1
            && (forall item :: item != Start(n) && item != OkMsg(n, from) && item != ElectionMsg(from, n) ==>
                  d.pool[item] == c.pool[item])
            && d == c.(pool := d.pool)
  {
  }

  /** An OK ends the election of its receiver and takes its last timer away; it makes nothing new. */
  lemma OkEndsElection(c: Cluster, from: int, n: int, late: bool)
    requires Enabled(c, GetOk(from, n, late))
    ensures var d := Next(c, GetOk(from, n, late));
            && OnlyAt(c, d, n) && !d.elec[n].running && d.elec[n].okTimer == None
            && d.pool <= c.pool - multiset{OkMsg(from, n)} && d.master == c.master && d.victors == c.victors
            && forall item :: item != OkMsg(from, n) && !TimerOf(item, n) ==> d.pool[item] == c.pool[item]
  {
    assert c.master[n := c.master[n]] == c.master;
  }

  /** A victory ends the election, is put on record and leads to the announcement, whatever timer is left. */
  lemma DeclareWins(c: Cluster, n: int, late: bool)
    requires Enabled(c, Declare(n, late))
    ensures var d := Next(c, Declare(n, late));
            && OnlyAt(c, d, n) && !d.elec[n].running && d.elec[n].okTimer == c.elec[n].okTimer
            && d.victors == c.victors + [n] && d.master == c.master
            && d.pool[Announcing(n)] == c.pool[Announcing(n)] + 1
            && d.pool[Declaring(n)] == c.pool[Declaring(n)] - 1
            && forall item :: item != Announcing(n) && item != Declaring(n) && !TimerOf(item, n) ==>
                 d.pool[item] == c.pool[item]
  {
    assert c.master[n := c.master[n]] == c.master;
  }

  /** A COORDINATOR makes its receiver take the announced node for master, and nothing else. */
  lemma CoordinatorIsBelieved(c: Cluster, m: int, n: int)
    requires Enabled(c, GetCoordinator(m, n))
    ensures var d := Next(c, GetCoordinator(m, n));
            && OnlyAt(c, d, n) && d.master[n] == m && d.elec == c.elec && d.victors == c.victors
            && d.pool == c.pool - multiset{CoordinatorMsg(m, n)}
  {
    assert c.elec[n := c.elec[n]] == c.elec;
  }

  // ---- the engine object takes the same steps ----------------------------------------------------------

  /** The engine is in the state that the cluster has for node n. */
  ghost predicate Stands(e: Engine, c: Cluster, n: int)
    reads e, e.state
  {
    e.self == n && n in c.elec && n in c.master && e.View() == c.elec[n] && e.state.masterID == c.master[n]
  }

  /** An engine that enters StartElection goes on if and only if the step makes an election. */
  method EnterIsBegin(e: Engine, ghost c: Cluster) returns (go: bool)
    requires Stands(e, c, e.self) && Enabled(c, Begin(e.self))
    modifies e`running
    ensures Stands(e, Next(c, Begin(e.self)), e.self)
    ensures Next(c, Begin(e.self)).pool[Begun(e.self)] == c.pool[Begun(e.self)] + if go then 1 else 0
  {
    go := e.Enter();
    BeginStartsIff(c, e.self);
  }

  method ArmIsArm(e: Engine, ghost c: Cluster, timer: nat)
    requires Stands(e, c, e.self) && Enabled(c, Arm(e.self)) && timer == c.nextTimer
    modifies e`okTimer
    ensures Stands(e, Next(c, Arm(e.self)), e.self)
    ensures Timer(e.self, timer) in Next(c, Arm(e.self)).pool
  {
    e.ArmTimer(timer);
    ArmedTimerIsLast(c, e.self);
  }

  /** The callback of a timer goes on to declare if and only if the step makes a declaration. */
  method TimerIsFire(e: Engine, ghost c: Cluster, ghost t: nat) returns (declare: bool)
    requires Stands(e, c, e.self) && Enabled(c, Fire(e.self, t))
    ensures Stands(e, Next(c, Fire(e.self, t)), e.self)
    ensures Next(c, Fire(e.self, t)).pool[Declaring(e.self)] == c.pool[Declaring(e.self)] + if declare then 1 else 0
  {
    declare := e.TimerFires();
  }

  /** A declaration is two steps: the engine's flag, then the master. */
  method VictoryIsDeclare(e: Engine, ghost c: Cluster, ghost late: bool, ghost sent: set<int>)
    returns (stop: Option<nat>)
    requires Stands(e, c, e.self) && Enabled(c, Declare(e.self, late))
    requires sent <= c.ids && e.self !in sent
    modifies e`running, e.state`masterID
    ensures stop == c.elec[e.self].okTimer
    ensures var d := Next(c, Declare(e.self, late));
            Enabled(d, Announce(e.self, sent)) && Stands(e, Next(d, Announce(e.self, sent)), e.self)
  {
    stop := e.DeclareVictory();
    DeclareWins(c, e.self, late);
    AnnounceTellsOnce(Next(c, Declare(e.self, late)), e.self, sent, Announcing(e.self));
  }

  /** A challenge starts an election at the engine exactly when the step makes one; the reply, when its sender
      is known, goes to a configured node of the sender's name. */
  method ChallengeIsGetElection(e: Engine, ghost c: Cluster, candidate: int, from: string, ghost replied: bool)
    returns (reply: Option<NodeState.Node>, start: bool)
    requires Stands(e, c, e.self) && Enabled(c, GetElection(candidate, e.self, replied))
    ensures Stands(e, Next(c, GetElection(candidate, e.self, replied)), e.self)
    ensures Next(c, GetElection(candidate, e.self, replied)).pool[Start(e.self)]
            == c.pool[Start(e.self)] + if start then 1 else 0
    ensures reply.Some? ==> start && reply.value in e.state.all && reply.value.name == from
    ensures start && reply.None? ==> forall n :: n in e.state.all ==> n.name != from
  {
    reply, start := e.HandleElection(candidate, from);
    ChallengeIsTakenUpIff(c, candidate, e.self, replied);
  }

  method OkIsGetOk(e: Engine, ghost c: Cluster, from: int, ghost late: bool) returns (stop: Option<nat>)
    requires Stands(e, c, e.self) && Enabled(c, GetOk(from, e.self, late))
    modifies e
    ensures stop == c.elec[e.self].okTimer && Stands(e, Next(c, GetOk(from, e.self, late)), e.self)
  {
    stop := e.HandleElectionOK();
    OkEndsElection(c, from, e.self, late);
  }

  method CoordinatorIsGetCoordinator(e: Engine, ghost c: Cluster, master: int)
    requires Stands(e, c, e.self) && Enabled(c, GetCoordinator(master, e.self))
    modifies e.state`masterID
    ensures Stands(e, Next(c, GetCoordinator(master, e.self)), e.self)
  {
    e.HandleCoordinator(master);
    CoordinatorIsBelieved(c, master, e.self);
  }
}
