/** All election engines together: the pending work of every node, the messages in flight, crashes. */
module ElectionCluster {
  import opened Common
  import opened Election

  datatype Item =
    | Start(n: int)                    // a StartElection that has not taken the mutex yet
    | Begun(n: int)                    // it has set `running` and not yet sent anything
    | Sent(n: int)                     // it has sent its ELECTIONs and not yet armed its timer
    | Timer(n: int, t: nat)            // an armed timer, or its callback as long as it waits for the mutex
    | Declaring(n: int)                // on its way into declareVictory
    | Announcing(n: int)               // about to become master and tell everybody
    | ElectionMsg(n: int, to: int)
    | OkMsg(n: int, to: int)
    | CoordinatorMsg(n: int, to: int)

  datatype Cluster = Cluster(
    ids: set<int>,
    live: set<int>,
    elec: map<int, Elec>,
    master: map<int, int>,
    pool: multiset<Item>,
    nextTimer: nat,
    victors: seq<int>)                 // everybody who has declared victory, in order

  datatype Event =
    | Begin(n: int)
    | Send(n: int, lower: set<int>, sent: set<int>)
    | Arm(n: int)
    | Fire(n: int, t: nat)
    | Declare(n: int, late: bool)      // late: the timer to stop has fired already and waits for the mutex
    | Announce(n: int, sent: set<int>)
    | GetElection(from: int, n: int, replied: bool)
    | GetOk(from: int, n: int, late: bool)
    | GetCoordinator(master: int, n: int)
    | Lose(item: Item)
    | Crash(n: int)

  predicate IsMsg(item: Item) {
    item.ElectionMsg? || item.OkMsg? || item.CoordinatorMsg?
  }

  /** The node that has to act on an item. */
  function Actor(item: Item): int {
    if IsMsg(item) then item.to else item.n
  }

  predicate Known(c: Cluster, item: Item) {
    item.n in c.ids && Actor(item) in c.ids
  }

  ghost predicate WellFormed(c: Cluster) {
    && c.live <= c.ids && c.elec.Keys == c.ids && c.master.Keys == c.ids
    && forall item {:trigger Known(c, item)} :: item in c.pool ==> Known(c, item)
  }

  predicate Works(c: Cluster, n: int, item: Item) {
    n in c.live && n in c.elec && n in c.master && item in c.pool
  }

  predicate Enabled(c: Cluster, ev: Event) {
    match ev
    case Begin(n) => Works(c, n, Start(n))
    case Send(n, lower, sent) =>
      Works(c, n, Begun(n)) && sent <= lower && forall x :: x in lower ==> x in c.ids && x < n
    case Arm(n) => Works(c, n, Sent(n))
    case Fire(n, t) => Works(c, n, Timer(n, t))
    case Declare(n, _) => Works(c, n, Declaring(n))
    case Announce(n, sent) => Works(c, n, Announcing(n)) && sent <= c.ids && n !in sent
    case GetElection(from, n, _) => Works(c, n, ElectionMsg(from, n))
    case GetOk(from, n, _) => Works(c, n, OkMsg(from, n))
    case GetCoordinator(m, n) => Works(c, n, CoordinatorMsg(m, n))
    case Lose(item) => item in c.pool && (IsMsg(item) || item.n !in c.live)
    case Crash(n) => n in c.live
  }

  function Only(b: bool, item: Item): multiset<Item> {
    if b then multiset{item} else multiset{}
  }

  function Challenges(n: int, to: set<int>): multiset<Item> {
    multiset(set x | x in to :: ElectionMsg(n, x))
  }

  function Announcements(n: int, to: set<int>): multiset<Item> {
    multiset(set x | x in to :: CoordinatorMsg(n, x))
  }

  /** Stopping a timer that has already fired does nothing, even if its callback has yet to get the mutex. */
  function Stopped(pool: multiset<Item>, n: int, timer: Option<nat>, late: bool): multiset<Item> {
    if timer.Some? && !late then pool - multiset{Timer(n, timer.value)} else pool
  }

  /** The work that an event takes out of the pool. */
  function Consumed(ev: Event): multiset<Item> {
    match ev
    case Begin(n) => multiset{Start(n)}
    case Send(n, _, _) => multiset{Begun(n)}
    case Arm(n) => multiset{Sent(n)}
    case Fire(n, t) => multiset{Timer(n, t)}
    case Declare(n, _) => multiset{Declaring(n)}
    case Announce(n, _) => multiset{Announcing(n)}
    case GetElection(from, n, _) => multiset{ElectionMsg(from, n)}
    case GetOk(from, n, _) => multiset{OkMsg(from, n)}
    case GetCoordinator(m, n) => multiset{CoordinatorMsg(m, n)}
    case Lose(item) => multiset{item}
    case Crash(_) => multiset{}
  }

  /** The work that it puts in. */
  function Produced(c: Cluster, ev: Event): multiset<Item>
    requires Enabled(c, ev)
  {
    match ev
    case Begin(n) => Only(!c.elec[n].running, Begun(n))
    case Send(n, lower, sent) => if lower == {} then multiset{Declaring(n)} else Challenges(n, sent) + multiset{Sent(n)}
    case Arm(n) => multiset{Timer(n, c.nextTimer)}
    case Fire(n, _) => Only(c.elec[n].running, Declaring(n))
    case Declare(n, _) => multiset{Announcing(n)}
    case Announce(n, sent) => Announcements(n, sent)
    case GetElection(from, n, replied) =>
      if n < from then Only(replied, OkMsg(n, from)) + multiset{Start(n)} else multiset{}
    case _ => multiset{}
  }

  /** The work that stays, except for a timer that is stopped. */
  function Kept(c: Cluster, ev: Event): multiset<Item>
    requires Enabled(c, ev)
  {
    var rest := c.pool - Consumed(ev);
    match ev
    case Declare(n, late) => Stopped(rest, n, c.elec[n].okTimer, late)
    case GetOk(_, n, late) => Stopped(rest, n, c.elec[n].okTimer, late)
    case _ => rest
  }

  function Engines(c: Cluster, ev: Event): map<int, Elec>
    requires Enabled(c, ev)
  {
    match ev
    case Begin(n) => c.elec[n := Entered(c.elec[n])]
    case Arm(n) => c.elec[n := Armed(c.elec[n], c.nextTimer)]
    case Declare(n, _) => c.elec[n := Declared(c.elec[n])]
    case GetOk(_, n, _) => c.elec[n := SteppedDown(c.elec[n])]
    case _ => c.elec
  }

  function Masters(c: Cluster, ev: Event): map<int, int> {
    match ev
    case Announce(n, _) => c.master[n := n]
    case GetCoordinator(m, n) => c.master[n := m]
    case _ => c.master
  }

  function Next(c: Cluster, ev: Event): Cluster
    requires Enabled(c, ev)
  {
    c.(pool := Kept(c, ev) + Produced(c, ev),
       elec := Engines(c, ev),
       master := Masters(c, ev),
       live := if ev.Crash? then c.live - {ev.n} else c.live,
       nextTimer := if ev.Arm? then c.nextTimer + 1 else c.nextTimer,
       victors := if ev.Declare? then c.victors + [ev.n] else c.victors)
  }

  predicate Legal(c: Cluster, evs: seq<Event>)
    decreases |evs|
  {
    evs == [] || (Enabled(c, evs[0]) && Legal(Next(c, evs[0]), evs[1..]))
  }

  function Run(c: Cluster, evs: seq<Event>): Cluster
    requires Legal(c, evs)
    decreases |evs|
  {
    if evs == [] then c else Run(Next(c, evs[0]), evs[1..])
  }

  lemma KeptIsOld(c: Cluster, ev: Event)
    requires Enabled(c, ev)
    ensures Consumed(ev) <= c.pool && Kept(c, ev) <= c.pool - Consumed(ev)
  {
  }

  lemma ProducedIsKnown(c: Cluster, ev: Event, item: Item)
    requires WellFormed(c) && Enabled(c, ev) && item in Produced(c, ev)
    ensures Known(c, item)
  {
    match ev
    case GetElection(from, n, _) => assert Known(c, ElectionMsg(from, n));
    case _ =>
  }

  lemma StepWellFormed(c: Cluster, ev: Event)
    requires WellFormed(c) && Enabled(c, ev)
    ensures WellFormed(Next(c, ev))
  {
    var d := Next(c, ev);
    var kept, made := Kept(c, ev), Produced(c, ev);
    KeptIsOld(c, ev);
    forall item | item in kept ensures Known(d, item) {
      assert item in c.pool;
      assert Known(c, item);
    }
    forall item | item in made ensures Known(d, item) {
      ProducedIsKnown(c, ev, item);
    }
    assert d.pool == kept + made;
    SameNodes(c, ev);
  }

  lemma SameNodes(c: Cluster, ev: Event)
    requires WellFormed(c) && Enabled(c, ev)
    ensures var d := Next(c, ev);
            d.ids == c.ids && d.live <= c.live && d.elec.Keys == c.ids && d.master.Keys == c.ids
  {
    SameEngines(c, ev);
    SameMasters(c, ev);
  }

  lemma SameEngines(c: Cluster, ev: Event)
    requires WellFormed(c) && Enabled(c, ev)
    ensures Engines(c, ev).Keys == c.ids
  {
  }

  lemma SameMasters(c: Cluster, ev: Event)
    requires WellFormed(c) && Enabled(c, ev)
    ensures Masters(c, ev).Keys == c.ids
  {
  }

  lemma VictorsGrow(c: Cluster, ev: Event)
    requires Enabled(c, ev)
    ensures Next(c, ev).victors == if ev.Declare? then c.victors + [ev.n] else c.victors
  {
  }

  // ---- timers ------------------------------------------------------------------------------------

  /** The election of node n ends. */
  predicate Ends(ev: Event, n: int) {
    (ev.Declare? || ev.GetOk?) && ev.n == n
  }

  /** The end of an election stops the timer that its engine armed last, if that has not fired by then, and
      no other: a timer that a newer one has replaced goes on. */
  lemma OnlyLastTimerStops(c: Cluster, ev: Event, n: int, t: nat)
    requires Enabled(c, ev) && Ends(ev, n) && c.pool[Timer(n, t)] == 1
    ensures Timer(n, t) in Next(c, ev).pool <==> c.elec[n].okTimer != Some(t) || ev.late
  {
    var rest := c.pool - Consumed(ev);
    assert rest[Timer(n, t)] == 1;
    assert Timer(n, t) !in Produced(c, ev);
  }

  /** Arming replaces the timer: what was armed before can no longer be stopped by any end of an election. */
  lemma ArmedTimerIsLast(c: Cluster, n: int)
    requires Enabled(c, Arm(n))
    ensures var d := Next(c, Arm(n));
            && n in d.elec && d.elec[n].okTimer == Some(c.nextTimer) && Timer(n, c.nextTimer) in d.pool
            && forall t: nat :: t != c.nextTimer && Timer(n, t) in c.pool ==>
                 Timer(n, t) in d.pool && d.elec[n].okTimer != Some(t)
  {
    var rest := c.pool - Consumed(Arm(n));
    forall t: nat | Timer(n, t) in c.pool ensures Timer(n, t) in Next(c, Arm(n)).pool {
      assert rest[Timer(n, t)] == c.pool[Timer(n, t)];
    }
  }

  /** A timer leads to a declaration if and only if an election is running at its node by then, whichever
      election it was armed for. */
  lemma FireDeclaresIff(c: Cluster, n: int, t: nat)
    requires Enabled(c, Fire(n, t)) && Declaring(n) !in c.pool
    ensures Declaring(n) in Next(c, Fire(n, t)).pool <==> c.elec[n].running
  {
    var rest := c.pool - Consumed(Fire(n, t));
    assert Declaring(n) !in rest;
  }

  // ---- quiescence: a weight for every item ---------------------------------------------------------

  function Pow2(k: nat): (p: nat)
    ensures p >= 1
  {
    if k == 0 then 1 else 2 * Pow2(k - 1)
  }

  function Below(ids: set<int>, n: int): set<int> {
    set x | x in ids && x < n
  }

  /** An ELECTION to the k-th lowest node outweighs all that it can set off at that node and below. */
  function ElectionWeight(ids: set<int>, n: int): (w: nat)
    ensures w >= |ids| + 8
  {
    MulGrows(|ids| + 8, 1, Pow2(|Below(ids, n)|));
    (|ids| + 8) * Pow2(|Below(ids, n)|)
  }

  function Weight(ids: set<int>, item: Item): nat
    ensures Weight(ids, item) >= 1
  {
    var size := |ids|;
    match item
    case CoordinatorMsg(_, _) => 1
    case OkMsg(_, _) => 1
    case Announcing(_) => size + 1
    case Declaring(_) => size + 2
    case Timer(_, _) => size + 3
    case Sent(_) => size + 4
    case Begun(n) => ElectionWeight(ids, n) - 3
    case Start(n) => ElectionWeight(ids, n) - 2
    case ElectionMsg(_, to) => ElectionWeight(ids, to)
  }

  ghost function Total(ids: set<int>, pool: multiset<Item>): nat
    decreases |pool|
  {
    if pool == multiset{} then 0
    else
      var item :| item in pool;
      Weight(ids, item) + Total(ids, pool - multiset{item})
  }

  lemma TotalSome(ids: set<int>, pool: multiset<Item>) returns (first: Item)
    requires pool != multiset{}
    ensures first in pool && Total(ids, pool) == Weight(ids, first) + Total(ids, pool - multiset{first})
  {
    first :| first in pool && Total(ids, pool) == Weight(ids, first) + Total(ids, pool - multiset{first});
  }

  lemma TakeBoth(pool: multiset<Item>, a: Item, b: Item)
    requires a in pool && b in pool && a != b
    ensures pool - multiset{a} - multiset{b} == pool - multiset{b} - multiset{a}
    ensures b in pool - multiset{a} && a in pool - multiset{b}
  {
  }

  lemma {:induction false} TotalTakes(ids: set<int>, pool: multiset<Item>, item: Item)
    requires item in pool
    ensures Total(ids, pool) == Weight(ids, item) + Total(ids, pool - multiset{item})
    decreases |pool|
  {
    var first := TotalSome(ids, pool);
    if first != item {
      TakeBoth(pool, first, item);
      TotalTakes(ids, pool - multiset{first}, item);
      TotalTakes(ids, pool - multiset{item}, first);
    }
  }

  lemma {:induction false} TotalAdds(ids: set<int>, a: multiset<Item>, b: multiset<Item>)
    ensures Total(ids, a + b) == Total(ids, a) + Total(ids, b)
    decreases |b|
  {
    if b == multiset{} {
      assert a + b == a;
    } else {
      var item :| item in b;
      TotalTakes(ids, a + b, item);
      TotalTakes(ids, b, item);
      assert a + b - multiset{item} == a + (b - multiset{item});
      TotalAdds(ids, a, b - multiset{item});
    }
  }

  lemma TotalOne(ids: set<int>, item: Item)
    ensures Total(ids, multiset{item}) == Weight(ids, item)
  {
    TotalTakes(ids, multiset{item}, item);
    assert multiset{item} - multiset{item} == multiset{};
  }

  lemma TotalShrinks(ids: set<int>, a: multiset<Item>, b: multiset<Item>)
    requires a <= b
    ensures Total(ids, a) <= Total(ids, b)
  {
    assert b == a + (b - a);
    TotalAdds(ids, a, b - a);
  }

  // ---- the weight of a broadcast -------------------------------------------------------------------

  lemma {:induction false} Highest(s: set<int>) returns (m: int)
    requires s != {}
    ensures m in s && forall x :: x in s ==> x <= m
    decreases |s|
  {
    var first := Member(s);
    var rest := s - {first};
    if rest == {} {
      m := first;
    } else {
      var top := Highest(rest);
      m := if top > first then top else first;
    }
    forall x | x in s ensures x <= m {
      assert x == first || x in rest;
    }
  }

  lemma {:induction false} PowGrows(a: nat, b: nat)
    requires a <= b
    ensures Pow2(a) <= Pow2(b)
    decreases b - a
  {
    if a < b {
      PowGrows(a, b - 1);
    }
  }

  /** A lower node weighs at most half. */
  lemma LowerWeighsHalf(ids: set<int>, m: int, n: int)
    requires m in ids && m < n
    ensures 2 * ElectionWeight(ids, m) <= ElectionWeight(ids, n)
  {
    var c, low, high := |ids| + 8, Below(ids, m), Below(ids, n);
    assert low + {m} <= high;
    SubsetSize(low + {m}, high);
    PowGrows(|low| + 1, |high|);
    assert Pow2(|low| + 1) == 2 * Pow2(|low|);
    MulGrows(c, 2 * Pow2(|low|), Pow2(|high|));
    assert c * (2 * Pow2(|low|)) == 2 * (c * Pow2(|low|));
  }

  /** Challenging any nodes below n weighs less than being challenged oneself. */
  lemma {:induction false} ChallengesWeight(ids: set<int>, from: int, to: set<int>, n: int)
    requires forall x :: x in to ==> x in ids && x < n
    ensures Total(ids, Challenges(from, to)) + |ids| + 8 <= ElectionWeight(ids, n)
    decreases |to|
  {
    if to == {} {
      assert Challenges(from, to) == multiset{};
    } else {
      var m := Highest(to);
      var rest := to - {m};
      ChallengesWeight(ids, from, rest, m);
      assert Challenges(from, to) == Challenges(from, rest) + multiset{ElectionMsg(from, m)};
      TotalAdds(ids, Challenges(from, rest), multiset{ElectionMsg(from, m)});
      TotalOne(ids, ElectionMsg(from, m));
      LowerWeighsHalf(ids, m, n);
    }
  }

  lemma MulGrows(c: nat, a: nat, b: nat)
    requires a <= b
    ensures c * a <= c * b
  {
  }

  lemma {:induction false} AnnouncementsWeight(ids: set<int>, n: int, to: set<int>)
    ensures Total(ids, Announcements(n, to)) == |to|
    decreases |to|
  {
    if to == {} {
      assert Announcements(n, to) == multiset{};
    } else {
      var x := Member(to);
      assert Announcements(n, to) == Announcements(n, to - {x}) + multiset{CoordinatorMsg(n, x)};
      TotalAdds(ids, Announcements(n, to - {x}), multiset{CoordinatorMsg(n, x)});
      TotalOne(ids, CoordinatorMsg(n, x));
      AnnouncementsWeight(ids, n, to - {x});
    }
  }

  // ---- every step weighs less ------------------------------------------------------------------------

  ghost function Measure(c: Cluster): nat {
    Total(c.ids, c.pool) + |c.live|
  }

  lemma OneForOne(ids: set<int>, was: Item, now: Item, made: multiset<Item>)
    requires made == multiset{} || made == multiset{now}
    requires Weight(ids, now) < Weight(ids, was)
    ensures Total(ids, made) < Total(ids, multiset{was})
  {
    TotalOne(ids, was);
    TotalOne(ids, now);
  }

  lemma SendWeighsLess(ids: set<int>, n: int, sent: set<int>)
    requires forall x :: x in sent ==> x in ids && x < n
    ensures Total(ids, Challenges(n, sent) + multiset{Sent(n)}) < Total(ids, multiset{Begun(n)})
  {
    TotalOne(ids, Begun(n));
    TotalOne(ids, Sent(n));
    ChallengesWeight(ids, n, sent, n);
    TotalAdds(ids, Challenges(n, sent), multiset{Sent(n)});
  }

  lemma AnnounceWeighsLess(ids: set<int>, n: int, sent: set<int>)
    requires sent <= ids
    ensures Total(ids, Announcements(n, sent)) < Total(ids, multiset{Announcing(n)})
  {
    TotalOne(ids, Announcing(n));
    AnnouncementsWeight(ids, n, sent);
    SubsetSize(sent, ids);
  }

  lemma ChallengedWeighsLess(ids: set<int>, from: int, to: int, replied: bool)
    ensures Total(ids, Only(replied, OkMsg(to, from)) + multiset{Start(to)})
            < Total(ids, multiset{ElectionMsg(from, to)})
  {
    TotalOne(ids, ElectionMsg(from, to));
    TotalOne(ids, OkMsg(to, from));
    TotalOne(ids, Start(to));
    TotalAdds(ids, Only(replied, OkMsg(to, from)), multiset{Start(to)});
  }

  lemma MessageWeighsLess(c: Cluster, ev: Event)
    requires Enabled(c, ev) && (ev.GetElection? || ev.GetOk? || ev.GetCoordinator? || ev.Lose?)
    ensures Total(c.ids, Produced(c, ev)) < Total(c.ids, Consumed(ev))
  {
    match ev
    case GetElection(from, n, replied) =>
      TotalOne(c.ids, ElectionMsg(from, n));
      ChallengedWeighsLess(c.ids, from, n, replied);
    case GetOk(from, n, _) => TotalOne(c.ids, OkMsg(from, n));
    case GetCoordinator(m, n) => TotalOne(c.ids, CoordinatorMsg(m, n));
    case Lose(item) => TotalOne(c.ids, item);
  }

  lemma BroadcastWeighsLess(c: Cluster, ev: Event)
    requires Enabled(c, ev) && (ev.Send? || ev.Announce?)
    ensures Total(c.ids, Produced(c, ev)) < Total(c.ids, Consumed(ev))
  {
    match ev
    case Send(n, lower, sent) =>
      SendWeighsLess(c.ids, n, sent);
      OneForOne(c.ids, Begun(n), Declaring(n), multiset{Declaring(n)});
    case Announce(n, sent) => AnnounceWeighsLess(c.ids, n, sent);
  }

  lemma ProducedWeighsLess(c: Cluster, ev: Event)
    requires Enabled(c, ev) && !ev.Crash?
    ensures Total(c.ids, Produced(c, ev)) < Total(c.ids, Consumed(ev))
  {
    match ev
    case Begin(n) => OneForOne(c.ids, Start(n), Begun(n), Produced(c, ev));
    case Arm(n) => OneForOne(c.ids, Sent(n), Timer(n, c.nextTimer), Produced(c, ev));
    case Fire(n, t) => OneForOne(c.ids, Timer(n, t), Declaring(n), Produced(c, ev));
    case Declare(n, _) => OneForOne(c.ids, Declaring(n), Announcing(n), Produced(c, ev));
    case Send(_, _, _) => BroadcastWeighsLess(c, ev);
    case Announce(_, _) => BroadcastWeighsLess(c, ev);
    case _ => MessageWeighsLess(c, ev);
  }

  lemma PoolShrinks(ids: set<int>, pool: multiset<Item>, taken: multiset<Item>, kept: multiset<Item>,
                    made: multiset<Item>)
    requires taken <= pool && kept <= pool - taken
    ensures Total(ids, kept + made) + Total(ids, taken) <= Total(ids, pool) + Total(ids, made)
  {
    TotalAdds(ids, kept, made);
    TotalShrinks(ids, kept, pool - taken);
    assert pool == (pool - taken) + taken;
    TotalAdds(ids, pool - taken, taken);
  }

  /** Whatever happens next, there is less left to happen. */
  lemma StepDecreases(c: Cluster, ev: Event)
    requires Enabled(c, ev)
    ensures Measure(Next(c, ev)) < Measure(c)
  {
    KeptIsOld(c, ev);
    PoolShrinks(c.ids, c.pool, Consumed(ev), Kept(c, ev), Produced(c, ev));
    if ev.Crash? {
      assert c.live == (c.live - {ev.n}) + {ev.n};
    } else {
      ProducedWeighsLess(c, ev);
    }
  }

  /** Elections quiesce: from any state, with any order of delivery, any views of who is alive, lost
      messages and crashes, no run is longer than the measure of its first state. */
  lemma {:induction false} RunsAreFinite(c: Cluster, evs: seq<Event>)
    requires Legal(c, evs)
    ensures |evs| <= Measure(c)
    decreases |evs|
  {
    if evs != [] {
      StepDecreases(c, evs[0]);
      RunsAreFinite(Next(c, evs[0]), evs[1..]);
    }
  }
}
