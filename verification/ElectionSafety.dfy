/** Who wins an election, and what all nodes agree on in the end.

    The assumptions are those of a crash-stop system whose timeout is long enough: a live node is never
    missing from a view, a message to a live node is sent and not lost, and a timer fires only when the
    answers it waits for are in.  Stale timers need one more: none fires while an election of its node
    has begun but not sent its challenges.  Without it the wrong node can win. */
module ElectionSafety {
  import opened Common
  import opened Election
  import opened ElectionCluster
  import Paths

  /** Every answer that n's challenges could still bring has arrived. */
  ghost predicate AnswersIn(c: Cluster, n: int) {
    && (forall x {:trigger ElectionMsg(n, x)} :: x in c.live ==> ElectionMsg(n, x) !in c.pool)
    && (forall x {:trigger OkMsg(x, n)} :: OkMsg(x, n) !in c.pool)
  }

  ghost predicate Reliable(c: Cluster, ev: Event) {
    match ev
    case Send(n, lower, sent) => forall x :: x in c.live && x < n ==> x in lower && x in sent
    case Fire(n, _) => AnswersIn(c, n) && Begun(n) !in c.pool
    case Announce(n, sent) => c.live - {n} <= sent
    case GetElection(from, _, replied) => from in c.live ==> replied
    case Lose(item) => IsMsg(item) ==> item.to !in c.live
    case _ => true
  }

  ghost predicate AllReliable(c: Cluster, evs: seq<Event>)
    requires Legal(c, evs)
    decreases |evs|
  {
    evs == [] || (Reliable(c, evs[0]) && AllReliable(Next(c, evs[0]), evs[1..]))
  }

  ghost predicate Lowest(c: Cluster, n: int) {
    forall x :: x in c.live ==> n <= x
  }

  // ---- the pool after a step -----------------------------------------------------------------------

  lemma StoppingTakesATimer(pool: multiset<Item>, n: int, timer: Option<nat>, late: bool, item: Item)
    requires !item.Timer?
    ensures Stopped(pool, n, timer, late)[item] == pool[item]
  {
  }

  lemma Stays(c: Cluster, ev: Event, item: Item)
    requires Enabled(c, ev) && item in c.pool && item !in Consumed(ev) && !item.Timer?
    ensures item in Next(c, ev).pool
  {
    var rest := c.pool - Consumed(ev);
    assert item in rest;
    match ev
    case Declare(n, late) => StoppingTakesATimer(rest, n, c.elec[n].okTimer, late, item);
    case GetOk(_, n, late) => StoppingTakesATimer(rest, n, c.elec[n].okTimer, late, item);
    case _ => assert Kept(c, ev) == rest;
  }

  lemma Comes(c: Cluster, ev: Event, item: Item)
    requires Enabled(c, ev) && item in Next(c, ev).pool
    ensures item in c.pool || item in Produced(c, ev)
  {
  }

  lemma IsProduced(c: Cluster, ev: Event, item: Item)
    requires Enabled(c, ev) && item in Produced(c, ev)
    ensures item in Next(c, ev).pool
  {
  }

  // ---- the invariant -------------------------------------------------------------------------------

  /** n's challenge of x, or x's answer, is on its way. */
  predicate Pending(c: Cluster, n: int, x: int) {
    ElectionMsg(n, x) in c.pool || OkMsg(x, n) in c.pool
  }

  /** A node that runs an election is about to challenge, or waits for every live lower node. */
  ghost predicate RunningOk(c: Cluster, n: int)
    requires n in c.elec
  {
    c.elec[n].running ==>
      Begun(n) in c.pool || forall x {:trigger Pending(c, n, x)} :: x in c.live && x < n ==> Pending(c, n, x)
  }

  ghost predicate DeclaringOk(c: Cluster, n: int) {
    Declaring(n) in c.pool ==> Lowest(c, n)
  }

  ghost predicate VictorsOk(c: Cluster) {
    && (forall i, j :: 0 <= i < j < |c.victors| ==> c.victors[i] <= c.victors[j])
    && (forall i :: 0 <= i < |c.victors| ==> Lowest(c, c.victors[i]))
  }

  ghost predicate Inv(c: Cluster) {
    && WellFormed(c)
    && (forall n {:trigger RunningOk(c, n)} :: n in c.live ==> RunningOk(c, n))
    && (forall n {:trigger DeclaringOk(c, n)} :: n in c.live ==> DeclaringOk(c, n))
    && VictorsOk(c)
  }

  /** n's challenge of a live lower node stays on its way or is answered. */
  lemma ChallengeKept(c: Cluster, ev: Event, n: int, x: int)
    requires Enabled(c, ev) && Reliable(c, ev) && n in c.live && x in c.live && x < n && ElectionMsg(n, x) in c.pool
    ensures Pending(Next(c, ev), n, x)
  {
    if ElectionMsg(n, x) in Consumed(ev) {
      assert ev == GetElection(n, x, true);
      IsProduced(c, ev, OkMsg(x, n));
    } else {
      Stays(c, ev, ElectionMsg(n, x));
    }
  }

  lemma AnswerKept(c: Cluster, ev: Event, n: int, x: int)
    requires Enabled(c, ev) && Reliable(c, ev) && n in c.live && OkMsg(x, n) in c.pool && !(ev.GetOk? && ev.n == n)
    ensures Pending(Next(c, ev), n, x)
  {
    assert OkMsg(x, n) !in Consumed(ev);
    Stays(c, ev, OkMsg(x, n));
  }

  lemma PendingKept(c: Cluster, ev: Event, n: int, x: int)
    requires Enabled(c, ev) && Reliable(c, ev)
    requires n in c.live && x in c.live && x < n && Pending(c, n, x)
    ensures Pending(Next(c, ev), n, x) || (ev.GetOk? && ev.n == n)
  {
    if ElectionMsg(n, x) in c.pool {
      ChallengeKept(c, ev, n, x);
    } else if !(ev.GetOk? && ev.n == n) {
      AnswerKept(c, ev, n, x);
    }
  }

  lemma RunningAfter(c: Cluster, ev: Event, n: int)
    requires WellFormed(c) && Enabled(c, ev) && n in c.elec
    ensures n in Next(c, ev).elec
    ensures Next(c, ev).elec[n].running <==>
              ev == Begin(n) || (c.elec[n].running && !Ends(ev, n))
  {
    EnginesAfter(c, ev, n);
    assert Next(c, ev).elec == Engines(c, ev);
  }

  lemma EnginesAfter(c: Cluster, ev: Event, n: int)
    requires WellFormed(c) && Enabled(c, ev) && n in c.elec
    ensures n in Engines(c, ev)
    ensures Engines(c, ev)[n].running <==>
              ev == Begin(n) || (c.elec[n].running && !Ends(ev, n))
  {
  }

  lemma RunningKept(c: Cluster, ev: Event, n: int)
    requires Inv(c) && Enabled(c, ev) && Reliable(c, ev)
    requires n in Next(c, ev).live
    ensures n in Next(c, ev).elec && RunningOk(Next(c, ev), n)
  {
    var d := Next(c, ev);
    SameNodes(c, ev);
    assert RunningOk(c, n);
    RunningAfter(c, ev, n);
    if d.elec[n].running {
      if ev == Begin(n) && !c.elec[n].running {
        IsProduced(c, ev, Begun(n));
      } else if Begun(n) in c.pool && Begun(n) !in Consumed(ev) {
        Stays(c, ev, Begun(n));
      } else if Begun(n) in Consumed(ev) {
        ChallengesPending(c, ev, n);
      } else {
        forall x | x in d.live && x < n ensures Pending(d, n, x) {
          assert Pending(c, n, x);
          PendingKept(c, ev, n, x);
        }
      }
    }
  }

  lemma ChallengesPending(c: Cluster, ev: Event, n: int)
    requires WellFormed(c) && Enabled(c, ev) && Reliable(c, ev) && Begun(n) in Consumed(ev) && n in c.live
    ensures var d := Next(c, ev); forall x {:trigger Pending(d, n, x)} :: x in d.live && x < n ==> Pending(d, n, x)
  {
    var d := Next(c, ev);
    assert ev.Send? && ev.n == n;
    forall x | x in d.live && x < n ensures Pending(d, n, x) {
      assert x in ev.lower && x in ev.sent;
      assert ElectionMsg(n, x) in Challenges(n, ev.sent);
      IsProduced(c, ev, ElectionMsg(n, x));
    }
  }

  /** A declaration comes from an election nobody could answer, or from a timer with all answers in. */
  lemma DeclaringKept(c: Cluster, ev: Event, n: int)
    requires n in c.live && n in c.elec && DeclaringOk(c, n) && RunningOk(c, n) && Enabled(c, ev) && Reliable(c, ev)
    ensures DeclaringOk(Next(c, ev), n)
  {
    LiveShrinks(c, ev);
    if Declaring(n) in Next(c, ev).pool {
      Comes(c, ev, Declaring(n));
      if Declaring(n) in Produced(c, ev) {
        NewDeclaration(c, ev, n);
      }
    }
  }

  lemma NewDeclaration(c: Cluster, ev: Event, n: int)
    requires n in c.live && n in c.elec && RunningOk(c, n) && Enabled(c, ev) && Reliable(c, ev)
    requires Declaring(n) in Produced(c, ev)
    ensures Lowest(c, n)
  {
    if ev.Fire? {
      forall x | x in c.live ensures n <= x {
        assert Pending(c, n, x) || x >= n;
      }
    }
  }

  lemma VictorsKept(c: Cluster, ev: Event)
    requires VictorsOk(c) && Enabled(c, ev) && (ev.Declare? ==> Lowest(c, ev.n))
    ensures VictorsOk(Next(c, ev))
  {
    VictorsGrow(c, ev);
    LiveShrinks(c, ev);
    StillInOrder(c, Next(c, ev), ev);
  }

  lemma LiveShrinks(c: Cluster, ev: Event)
    requires Enabled(c, ev)
    ensures Next(c, ev).live <= c.live
  {
  }

  lemma StillInOrder(c: Cluster, d: Cluster, ev: Event)
    requires VictorsOk(c) && d.live <= c.live && (ev.Declare? ==> ev.n in c.live && Lowest(c, ev.n))
    requires d.victors == if ev.Declare? then c.victors + [ev.n] else c.victors
    ensures VictorsOk(d)
  {
    forall i | 0 <= i < |d.victors| ensures Lowest(d, d.victors[i]) {
      assert i < |c.victors| ==> Lowest(c, c.victors[i]);
    }
  }

  lemma StepKeeps(c: Cluster, ev: Event)
    requires Inv(c) && Enabled(c, ev) && Reliable(c, ev)
    ensures Inv(Next(c, ev))
  {
    var d := Next(c, ev);
    StepWellFormed(c, ev);
    forall n | n in d.live ensures RunningOk(d, n) && DeclaringOk(d, n) {
      RunningKept(c, ev, n);
      LiveShrinks(c, ev);
      assert RunningOk(c, n) && DeclaringOk(c, n);
      DeclaringKept(c, ev, n);
    }
    if ev.Declare? {
      assert DeclaringOk(c, ev.n);
    }
    VictorsKept(c, ev);
  }

  lemma {:induction false} InvAlways(c: Cluster, evs: seq<Event>)
    requires Inv(c) && Legal(c, evs) && AllReliable(c, evs)
    ensures Inv(Run(c, evs))
    decreases |evs|
  {
    if evs != [] {
      StepKeeps(c, evs[0]);
      InvAlways(Next(c, evs[0]), evs[1..]);
    }
  }

  /** Nothing has happened yet but elections that are about to start. */
  ghost predicate Init(c: Cluster) {
    && WellFormed(c) && c.victors == []
    && (forall n :: n in c.ids ==> c.elec[n] == QUIET)
    && (forall item {:trigger item.Start?} :: item in c.pool ==> item.Start? && item.n in c.live)
  }

  lemma InitIsOk(c: Cluster)
    requires Init(c)
    ensures Inv(c)
  {
    forall n | n in c.live ensures DeclaringOk(c, n) && RunningOk(c, n) {
      assert Declaring(n) in c.pool ==> Declaring(n).Start?;
    }
  }

  /** Every victory is declared by the lowest live node; so successive victors never get lower. */
  lemma VictoryByLowest(start: Cluster, evs: seq<Event>, n: int, late: bool)
    requires Init(start) && Legal(start, evs) && AllReliable(start, evs)
    requires Enabled(Run(start, evs), Declare(n, late))
    ensures Lowest(Run(start, evs), n)
    ensures var victors := Run(start, evs).victors + [n];
            forall i, j :: 0 <= i < j < |victors| ==> victors[i] <= victors[j]
  {
    InitIsOk(start);
    InvAlways(start, evs);
    WinsInOrder(Run(start, evs), n, late);
  }

  lemma WinsInOrder(c: Cluster, n: int, late: bool)
    requires Inv(c) && Enabled(c, Declare(n, late))
    ensures Lowest(c, n)
    ensures var victors := c.victors + [n];
            forall i, j :: 0 <= i < j < |victors| ==> victors[i] <= victors[j]
  {
    assert DeclaringOk(c, n);
  }

  // ---- stale timers ----------------------------------------------------------------------------------

  /** A timer that fires with all answers in makes the wrong node declare victory if and only if it is
      stale in one particular way: the node's next election has begun and has not challenged anybody. */
  lemma WrongVictoryIff(start: Cluster, evs: seq<Event>, n: int, t: nat)
    requires Init(start) && Legal(start, evs) && AllReliable(start, evs)
    requires var c := Run(start, evs);
             Enabled(c, Fire(n, t)) && AnswersIn(c, n) && Declaring(n) !in c.pool && !Lowest(c, n)
    ensures var c := Run(start, evs);
            Declaring(n) in Next(c, Fire(n, t)).pool <==> c.elec[n].running && Begun(n) in c.pool
  {
    InitIsOk(start);
    InvAlways(start, evs);
    var c := Run(start, evs);
    assert RunningOk(c, n);
    var x :| x in c.live && x < n;
    assert !Pending(c, n, x);
    if Declaring(n) in Next(c, Fire(n, t)).pool {
      Comes(c, Fire(n, t), Declaring(n));
    }
    if c.elec[n].running {
      IsProduced(c, Fire(n, t), Declaring(n));
    }
  }

  ghost predicate ReliableStep(c: Cluster, ev: Event, d: Cluster) {
    Enabled(c, ev) && Reliable(c, ev) && Next(c, ev) == d
  }

  ghost function Reliably(): (Cluster, Event, Cluster) -> bool {
    (c, ev, d) => ReliableStep(c, ev, d)
  }

  lemma {:induction false} PathIsRun(c: Cluster, evs: seq<Event>, d: Cluster)
    requires Paths.Leads(Reliably(), c, evs, d)
    ensures Legal(c, evs) && AllReliable(c, evs) && Run(c, evs) == d
    decreases |evs|
  {
    if evs == [] {
    } else {
      var e :| Reliably()(c, evs[0], e) && Paths.Leads(Reliably(), e, evs[1..], d);
      PathIsRun(e, evs[1..], d);
    }
  }

  lemma ReachesOn(start: Cluster, c: Cluster, ev: Event, d: Cluster)
    requires Paths.Reaches(Reliably(), start, c) && ReliableStep(c, ev, d)
    ensures Paths.Reaches(Reliably(), start, d)
  {
    assert Reliably()(c, ev, d);
    Paths.ReachesOn(Reliably(), start, c, ev, d);
  }

  /** Nodes 1 and 2 are alive, node 1 is quiet. */
  function Two(two: Elec, timers: nat, pool: multiset<Item>): Cluster {
    Cluster({1, 2}, {1, 2}, map[1 := QUIET, 2 := two], map[1 := 1, 2 := 1], pool, timers, [])
  }

  /** Node 2 has been told twice to start an election. */
  function TwoStarts(): Cluster {
    Two(QUIET, 0, multiset{Start(2), Start(2)})
  }

  lemma Begins(two: Elec, timers: nat, rest: multiset<Item>)
    requires !two.running
    ensures ReliableStep(Two(two, timers, rest + multiset{Start(2)}), Begin(2),
                         Two(two.(running := true), timers, rest + multiset{Begun(2)}))
  {
    var c := Two(two, timers, rest + multiset{Start(2)});
    assert c.pool - multiset{Start(2)} == rest;
    assert Engines(c, Begin(2)) == map[1 := QUIET, 2 := two.(running := true)];
  }

  lemma Sends(two: Elec, timers: nat, rest: multiset<Item>)
    ensures ReliableStep(Two(two, timers, rest + multiset{Begun(2)}), Send(2, {1}, {1}),
                         Two(two, timers, rest + (multiset{ElectionMsg(2, 1)} + multiset{Sent(2)})))
  {
    var c, ev := Two(two, timers, rest + multiset{Begun(2)}), Send(2, {1}, {1});
    assert Enabled(c, ev) && Reliable(c, ev);
    assert c.pool - multiset{Begun(2)} == rest;
    assert Challenges(2, {1}) == multiset{ElectionMsg(2, 1)};
    assert Produced(c, ev) == multiset{ElectionMsg(2, 1)} + multiset{Sent(2)};
    assert Kept(c, ev) == rest;
  }

  lemma Answers(two: Elec, timers: nat, rest: multiset<Item>)
    ensures ReliableStep(Two(two, timers, rest + multiset{ElectionMsg(2, 1)}), GetElection(2, 1, true),
                         Two(two, timers, rest + multiset{OkMsg(1, 2), Start(1)}))
  {
    var c, ev := Two(two, timers, rest + multiset{ElectionMsg(2, 1)}), GetElection(2, 1, true);
    assert c.pool - multiset{ElectionMsg(2, 1)} == rest;
    assert Produced(c, ev) == multiset{OkMsg(1, 2), Start(1)};
  }

  lemma StepsDown(timers: nat, rest: multiset<Item>)
    ensures ReliableStep(Two(Elec(true, None), timers, rest + multiset{OkMsg(1, 2)}), GetOk(1, 2, false),
                         Two(QUIET, timers, rest))
  {
    var c, ev := Two(Elec(true, None), timers, rest + multiset{OkMsg(1, 2)}), GetOk(1, 2, false);
    assert c.pool - multiset{OkMsg(1, 2)} == rest;
    assert Engines(c, ev) == map[1 := QUIET, 2 := QUIET];
    assert rest + multiset{} == rest;
  }

  lemma Arms(timers: nat, rest: multiset<Item>)
    ensures ReliableStep(Two(QUIET, timers, rest + multiset{Sent(2)}), Arm(2),
                         Two(Elec(false, Some(timers)), timers + 1, rest + multiset{Timer(2, timers)}))
  {
    var c, ev := Two(QUIET, timers, rest + multiset{Sent(2)}), Arm(2);
    assert c.pool - multiset{Sent(2)} == rest;
    assert Engines(c, ev) == map[1 := QUIET, 2 := Elec(false, Some(timers))];
    assert Kept(c, ev) == rest && Produced(c, ev) == multiset{Timer(2, timers)};
  }

  lemma FirstHalf()
    ensures Paths.Reaches(Reliably(), TwoStarts(),
                          Two(Elec(true, None), 0, multiset{Start(2), Sent(2), Start(1), OkMsg(1, 2)}))
  {
    var on, start := Elec(true, None), TwoStarts();
    var a := Two(on, 0, multiset{Start(2), Begun(2)});
    var b := Two(on, 0, multiset{Start(2), Sent(2), ElectionMsg(2, 1)});
    var c := Two(on, 0, multiset{Start(2), Sent(2), Start(1), OkMsg(1, 2)});
    SamePools();
    Begins(QUIET, 0, multiset{Start(2)});
    Sends(on, 0, multiset{Start(2)});
    Answers(on, 0, multiset{Start(2), Sent(2)});
    Paths.ReachesSelf(Reliably(), start);
    ReachesOn(start, start, Begin(2), a);
    ReachesOn(start, a, Send(2, {1}, {1}), b);
    ReachesOn(start, b, GetElection(2, 1, true), c);
  }

  /** Node 2's first election is answered before it arms its timer: the OK finds no timer to stop.  Its
      second election begins. */
  lemma LateTimer()
    ensures Paths.Reaches(Reliably(), TwoStarts(),
                          Two(Elec(true, Some(0)), 1, multiset{Start(1), Timer(2, 0), Begun(2)}))
  {
    var late, start := Elec(false, Some(0)), TwoStarts();
    var c := Two(Elec(true, None), 0, multiset{Start(2), Sent(2), Start(1), OkMsg(1, 2)});
    var d := Two(QUIET, 0, multiset{Start(2), Start(1), Sent(2)});
    var e := Two(late, 1, multiset{Start(1), Timer(2, 0), Start(2)});
    var f := Two(Elec(true, Some(0)), 1, multiset{Start(1), Timer(2, 0), Begun(2)});
    FirstHalf();
    SamePools();
    StepsDown(0, multiset{Start(2), Start(1), Sent(2)});
    Arms(0, multiset{Start(2), Start(1)});
    Begins(late, 1, multiset{Start(1), Timer(2, 0)});
    ReachesOn(start, c, GetOk(1, 2, false), d);
    ReachesOn(start, d, Arm(2), e);
    ReachesOn(start, e, Begin(2), f);
  }

  lemma SamePools()
    ensures multiset{Start(2)} + multiset{Start(2)} == multiset{Start(2), Start(2)}
    ensures multiset{Start(2)} + multiset{Begun(2)} == multiset{Start(2), Begun(2)}
    ensures multiset{Start(2)} + (multiset{ElectionMsg(2, 1)} + multiset{Sent(2)})
            == multiset{Start(2), Sent(2), ElectionMsg(2, 1)}
    ensures multiset{Start(2), Sent(2)} + multiset{ElectionMsg(2, 1)} == multiset{Start(2), Sent(2), ElectionMsg(2, 1)}
    ensures multiset{Start(2), Sent(2)} + multiset{OkMsg(1, 2), Start(1)}
            == multiset{Start(2), Sent(2), Start(1), OkMsg(1, 2)}
    ensures multiset{Start(2), Start(1), Sent(2)} + multiset{OkMsg(1, 2)}
            == multiset{Start(2), Sent(2), Start(1), OkMsg(1, 2)}
    ensures multiset{Start(2), Start(1)} + multiset{Sent(2)} == multiset{Start(2), Start(1), Sent(2)}
    ensures multiset{Start(2), Start(1)} + multiset{Timer(2, 0)} == multiset{Start(1), Timer(2, 0), Start(2)}
    ensures multiset{Start(1), Timer(2, 0)} + multiset{Start(2)} == multiset{Start(1), Timer(2, 0), Start(2)}
    ensures multiset{Start(1), Timer(2, 0)} + multiset{Begun(2)} == multiset{Start(1), Timer(2, 0), Begun(2)}
  {
  }

  lemma TwoStartsIsInit()
    ensures Init(TwoStarts())
  {
    var c := TwoStarts();
    forall item | item in c.pool ensures Known(c, item) && item.Start? && item.n in c.live {
    }
  }

  lemma FiresWrongly(c: Cluster)
    requires c == Two(Elec(true, Some(0)), 1, multiset{Start(1), Timer(2, 0), Begun(2)})
    ensures Enabled(c, Fire(2, 0)) && AnswersIn(c, 2) && Declaring(2) in Next(c, Fire(2, 0)).pool
  {
    IsProduced(c, Fire(2, 0), Declaring(2));
  }

  /** The timer of the answered election fires just after the next election has begun: node 2 declares
      victory although node 1 is alive, although every answer is in and every other step was reliable. */
  lemma StaleTimerElectsTheWrongNode() returns (evs: seq<Event>)
    ensures var start := TwoStarts();
            && Init(start) && Legal(start, evs) && AllReliable(start, evs)
            && var c := Run(start, evs);
               Enabled(c, Fire(2, 0)) && AnswersIn(c, 2) && Declaring(2) in Next(c, Fire(2, 0)).pool && 1 in c.live
  {
    var c := Two(Elec(true, Some(0)), 1, multiset{Start(1), Timer(2, 0), Begun(2)});
    TwoStartsIsInit();
    LateTimer();
    evs :| Paths.Leads(Reliably(), TwoStarts(), evs, c);
    PathIsRun(TwoStarts(), evs, c);
    FiresWrongly(c);
  }
}
