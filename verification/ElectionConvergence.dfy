/** Failover: once somebody alive starts an election and nobody crashes any more, the elections run to an
    end at which every live node takes the lowest live node for the master.  What happened before does not
    matter, crashes, earlier elections and their timers included, except for two kinds of message that can
    still be under way from it: announcements of earlier masters, and answers of dead nodes to that node. */
module ElectionConvergence {
  import opened Common
  import opened Election
  import opened ElectionCluster
  import opened ElectionSafety

  ghost predicate NoCrash(evs: seq<Event>) {
    forall i :: 0 <= i < |evs| ==> !evs[i].Crash?
  }

  /** Nothing in the pool announces another master than m to a live node, or makes m step down. */
  ghost predicate Clean(c: Cluster, m: int, item: Item) {
    match item
    case Announcing(n) => n == m || n !in c.live
    case CoordinatorMsg(n, to) => n == m || to !in c.live
    case OkMsg(_, to) => to != m
    case _ => true
  }

  ghost predicate HasTimer(c: Cluster, m: int) {
    exists t :: Timer(m, t) in c.pool
  }

  /** The election of m goes on: it is to challenge, to arm its timer, or waits for its timer. */
  ghost predicate AtWork(c: Cluster, m: int)
    requires m in c.elec
  {
    c.elec[m].running && (Begun(m) in c.pool || Sent(m) in c.pool || HasTimer(c, m))
  }

  /** Whoever runs an election is at work on it or about to declare victory. */
  ghost predicate WorkOk(c: Cluster, n: int)
    requires n in c.elec
  {
    c.elec[n].running ==> AtWork(c, n) || Declaring(n) in c.pool
  }

  ghost predicate OnItsWay(c: Cluster, m: int)
    requires m in c.elec
  {
    Start(m) in c.pool || AtWork(c, m) || Declaring(m) in c.pool
  }

  /** m is on its way to victory, or has won since there were so many victories. */
  ghost predicate Underway(c: Cluster, m: int, since: nat)
    requires m in c.elec
  {
    OnItsWay(c, m) || |c.victors| > since
  }

  /** n is on its way to make m start. */
  ghost predicate Coming(c: Cluster, m: int, n: int) {
    && n in c.live && n in c.elec && n != m
    && ((Start(n) in c.pool && !c.elec[n].running) || Begun(n) in c.pool || ElectionMsg(n, m) in c.pool)
  }

  ghost predicate Told(c: Cluster, m: int, y: int) {
    (y in c.master && c.master[y] == m) || CoordinatorMsg(m, y) in c.pool
  }

  ghost predicate Converging(c: Cluster, m: int, since: nat) {
    && Inv(c) && m in c.live && Lowest(c, m)
    && (forall item {:trigger Clean(c, m, item)} :: item in c.pool ==> Clean(c, m, item))
    && WorkOk(c, m)
    && (Underway(c, m, since) || exists n {:trigger Coming(c, m, n)} :: Coming(c, m, n))
    && (|c.victors| > since ==>
          Announcing(m) in c.pool || forall y {:trigger Told(c, m, y)} :: y in c.live ==> Told(c, m, y))
  }

  // ---- steps keep it ---------------------------------------------------------------------------------

  lemma CleanKept(c: Cluster, ev: Event, m: int, since: nat, item: Item)
    requires Converging(c, m, since) && Enabled(c, ev) && !ev.Crash? && item in Next(c, ev).pool
    ensures Clean(Next(c, ev), m, item)
  {
    Comes(c, ev, item);
    LiveStay(c, ev);
    if item in c.pool {
      assert Clean(c, m, item);
    } else {
      MadeClean(c, ev, m, since, item);
    }
  }

  lemma LiveStay(c: Cluster, ev: Event)
    requires Enabled(c, ev) && !ev.Crash?
    ensures Next(c, ev).live == c.live
  {
  }

  lemma MadeClean(c: Cluster, ev: Event, m: int, since: nat, item: Item)
    requires Converging(c, m, since) && Enabled(c, ev) && !ev.Crash? && item in Produced(c, ev)
    ensures Clean(c, m, item)
  {
    match ev
    case Declare(n, _) => assert DeclaringOk(c, n);
    case Announce(n, _) => assert Clean(c, m, Announcing(n));
    case _ =>
  }

  lemma StoppingSparesOthers(pool: multiset<Item>, n: int, timer: Option<nat>, late: bool, item: Item)
    requires !(item.Timer? && item.n == n)
    ensures Stopped(pool, n, timer, late)[item] == pool[item]
  {
  }

  lemma TimersStay(c: Cluster, ev: Event, m: int, t: nat)
    requires Enabled(c, ev) && m in c.live && Timer(m, t) in c.pool
    requires ev != Fire(m, t) && !Ends(ev, m)
    ensures Timer(m, t) in Next(c, ev).pool
  {
    var rest := c.pool - Consumed(ev);
    assert Timer(m, t) in rest;
    match ev
    case Declare(n, late) => StoppingSparesOthers(rest, n, c.elec[n].okTimer, late, Timer(m, t));
    case GetOk(_, n, late) => StoppingSparesOthers(rest, n, c.elec[n].okTimer, late, Timer(m, t));
    case _ => assert Kept(c, ev) == rest;
  }

  lemma NoOkForLowest(c: Cluster, m: int, since: nat, from: int)
    requires Converging(c, m, since)
    ensures OkMsg(from, m) !in c.pool
  {
    assert OkMsg(from, m) in c.pool ==> Clean(c, m, OkMsg(from, m));
  }

  lemma BegunGoesOn(c: Cluster, ev: Event, m: int)
    requires Enabled(c, ev) && Begun(m) in c.pool && m in c.live
    ensures var d := Next(c, ev); Begun(m) in d.pool || Sent(m) in d.pool || Declaring(m) in d.pool
  {
    if Begun(m) in Consumed(ev) && ev.Send? {
      if ev.lower == {} {
        IsProduced(c, ev, Declaring(m));
      } else {
        IsProduced(c, ev, Sent(m));
      }
    } else {
      Stays(c, ev, Begun(m));
    }
  }

  lemma SentGoesOn(c: Cluster, ev: Event, m: int)
    requires Enabled(c, ev) && Sent(m) in c.pool && m in c.live
    ensures var d := Next(c, ev); Sent(m) in d.pool || HasTimer(d, m)
  {
    if ev == Arm(m) {
      IsProduced(c, ev, Timer(m, c.nextTimer));
    } else {
      Stays(c, ev, Sent(m));
    }
  }

  lemma TimerGoesOn(c: Cluster, ev: Event, m: int, t: nat)
    requires Enabled(c, ev) && m in c.live && m in c.elec && Timer(m, t) in c.pool && c.elec[m].running
    requires !Ends(ev, m)
    ensures var d := Next(c, ev); Timer(m, t) in d.pool || Declaring(m) in d.pool
  {
    if ev == Fire(m, t) {
      IsProduced(c, ev, Declaring(m));
    } else {
      TimersStay(c, ev, m, t);
    }
  }

  /** What m is at work on is not lost: it goes on, or m declares victory. */
  lemma AtWorkGoesOn(c: Cluster, ev: Event, m: int)
    requires Enabled(c, ev) && m in c.live && WellFormed(c) && AtWork(c, m)
    requires !Ends(ev, m)
    ensures m in Next(c, ev).elec
    ensures AtWork(Next(c, ev), m) || Declaring(m) in Next(c, ev).pool
  {
    RunningAfter(c, ev, m);
    if Begun(m) in c.pool {
      BegunGoesOn(c, ev, m);
    } else if Sent(m) in c.pool {
      SentGoesOn(c, ev, m);
    } else {
      var t :| Timer(m, t) in c.pool;
      TimerGoesOn(c, ev, m, t);
    }
  }

  lemma WorkOnItsWay(c: Cluster, ev: Event, m: int)
    requires WellFormed(c) && m in c.live && Enabled(c, ev) && AtWork(c, m)
    requires !Ends(ev, m)
    ensures m in Next(c, ev).elec && OnItsWay(Next(c, ev), m)
  {
    AtWorkGoesOn(c, ev, m);
  }

  lemma DeclaringOnItsWay(c: Cluster, ev: Event, m: int)
    requires WellFormed(c) && m in c.live && Enabled(c, ev) && Declaring(m) in c.pool && !(ev.Declare? && ev.n == m)
    ensures m in Next(c, ev).elec && OnItsWay(Next(c, ev), m)
  {
    SameNodes(c, ev);
    Stays(c, ev, Declaring(m));
  }

  lemma StartOnItsWay(c: Cluster, ev: Event, m: int)
    requires WellFormed(c) && m in c.live && Enabled(c, ev)
    requires m in c.elec && Start(m) in c.pool && !c.elec[m].running
    ensures m in Next(c, ev).elec && OnItsWay(Next(c, ev), m)
  {
    StartGoesOn(c, ev, m);
  }

  lemma OnItsWayKept(c: Cluster, ev: Event, m: int)
    requires WellFormed(c) && m in c.live && Enabled(c, ev) && OnItsWay(c, m) && WorkOk(c, m)
    requires !Ends(ev, m)
    ensures m in Next(c, ev).elec && OnItsWay(Next(c, ev), m)
  {
    if Declaring(m) in c.pool {
      DeclaringOnItsWay(c, ev, m);
    } else if c.elec[m].running {
      WorkOnItsWay(c, ev, m);
    } else {
      StartOnItsWay(c, ev, m);
    }
  }

  lemma UnderwayKept(c: Cluster, ev: Event, m: int, since: nat)
    requires WellFormed(c) && m in c.live && Enabled(c, ev) && Underway(c, m, since) && WorkOk(c, m)
    requires |c.victors| >= since && !(ev.GetOk? && ev.n == m)
    ensures m in Next(c, ev).elec && Underway(Next(c, ev), m, since)
  {
    VictorsGrow(c, ev);
    if |c.victors| > since || (ev.Declare? && ev.n == m) {
      SameNodes(c, ev);
    } else {
      OnItsWayKept(c, ev, m);
    }
  }

  lemma StartGoesOn(c: Cluster, ev: Event, n: int)
    requires WellFormed(c) && Enabled(c, ev) && n in c.live && n in c.elec && Start(n) in c.pool && !c.elec[n].running
    ensures var d := Next(c, ev);
            && n in d.elec
            && if ev == Begin(n) then Begun(n) in d.pool && d.elec[n].running
               else Start(n) in d.pool && !d.elec[n].running
  {
    RunningAfter(c, ev, n);
    if ev == Begin(n) {
      IsProduced(c, ev, Begun(n));
    } else {
      Stays(c, ev, Start(n));
    }
  }

  lemma ChallengeGoesOn(c: Cluster, ev: Event, m: int, n: int)
    requires Enabled(c, ev) && Reliable(c, ev) && m in c.live && m < n && ElectionMsg(n, m) in c.pool
    ensures ElectionMsg(n, m) in Next(c, ev).pool || Start(m) in Next(c, ev).pool
  {
    if ElectionMsg(n, m) in Consumed(ev) {
      assert ev.GetElection?;
      IsProduced(c, ev, Start(m));
    } else {
      Stays(c, ev, ElectionMsg(n, m));
    }
  }

  lemma BegunChallenges(c: Cluster, ev: Event, m: int, n: int)
    requires Enabled(c, ev) && Reliable(c, ev) && m in c.live && n in c.live && m < n && Begun(n) in c.pool
    ensures Begun(n) in Next(c, ev).pool || ElectionMsg(n, m) in Next(c, ev).pool
  {
    if Begun(n) in Consumed(ev) {
      assert ev.Send?;
      assert ElectionMsg(n, m) in Challenges(n, ev.sent);
      IsProduced(c, ev, ElectionMsg(n, m));
    } else {
      Stays(c, ev, Begun(n));
    }
  }

  lemma ComingKept(c: Cluster, ev: Event, m: int, n: int)
    requires WellFormed(c) && m in c.live && Lowest(c, m)
    requires Enabled(c, ev) && Reliable(c, ev) && !ev.Crash? && Coming(c, m, n)
    ensures m in Next(c, ev).elec && (Coming(Next(c, ev), m, n) || Start(m) in Next(c, ev).pool)
  {
    SameNodes(c, ev);
    assert m < n;
    if ElectionMsg(n, m) in c.pool {
      ChallengeGoesOn(c, ev, m, n);
    } else if Begun(n) in c.pool {
      BegunChallenges(c, ev, m, n);
    } else {
      StartGoesOn(c, ev, n);
    }
  }

  /** In whatever run, a running election has work left to do. */
  lemma WorkKept(c: Cluster, ev: Event, n: int)
    requires WellFormed(c) && Enabled(c, ev) && n in c.live && WorkOk(c, n)
    ensures n in Next(c, ev).elec && WorkOk(Next(c, ev), n)
  {
    RunningAfter(c, ev, n);
    if Next(c, ev).elec[n].running {
      if !c.elec[n].running {
        IsProduced(c, ev, Begun(n));
      } else if AtWork(c, n) {
        AtWorkGoesOn(c, ev, n);
      } else {
        Stays(c, ev, Declaring(n));
      }
    }
  }

  lemma MasterAfter(c: Cluster, ev: Event, m: int, since: nat, y: int)
    requires Converging(c, m, since) && Enabled(c, ev) && y in c.master && c.master[y] == m
    ensures y in Next(c, ev).master && Next(c, ev).master[y] == m
  {
    if ev.Announce? {
      assert Clean(c, m, Announcing(ev.n));
    } else if ev.GetCoordinator? {
      OnlyMasterCoordinates(c, ev, m, since);
    }
    MastersAfter(c, ev, m, y);
  }

  lemma OnlyMasterCoordinates(c: Cluster, ev: Event, m: int, since: nat)
    requires Converging(c, m, since) && Enabled(c, ev) && ev.GetCoordinator?
    ensures ev == GetCoordinator(m, ev.n)
  {
    match ev
    case GetCoordinator(k, n) => assert Clean(c, m, CoordinatorMsg(k, n));
  }

  lemma MastersAfter(c: Cluster, ev: Event, m: int, y: int)
    requires Enabled(c, ev) && y in c.master && c.master[y] == m
    requires ev.Announce? ==> ev.n == m
    requires ev.GetCoordinator? ==> ev == GetCoordinator(m, ev.n)
    ensures y in Next(c, ev).master && Next(c, ev).master[y] == m
  {
  }

  lemma ToldKept(c: Cluster, ev: Event, m: int, since: nat, y: int)
    requires Converging(c, m, since) && Enabled(c, ev) && Reliable(c, ev) && !ev.Crash? && y in c.live && Told(c, m, y)
    ensures Told(Next(c, ev), m, y)
  {
    if y in c.master && c.master[y] == m {
      MasterAfter(c, ev, m, since, y);
    } else if CoordinatorMsg(m, y) in Consumed(ev) {
      assert ev == GetCoordinator(m, y);
    } else {
      Stays(c, ev, CoordinatorMsg(m, y));
    }
  }

  lemma AnnouncementTells(c: Cluster, ev: Event, m: int, y: int)
    requires Enabled(c, ev) && Reliable(c, ev) && ev.Announce? && ev.n == m && y in c.live
    ensures Told(Next(c, ev), m, y)
  {
    if y != m {
      assert CoordinatorMsg(m, y) in Announcements(m, ev.sent);
      IsProduced(c, ev, CoordinatorMsg(m, y));
    }
  }

  lemma AnnouncedKept(c: Cluster, ev: Event, m: int, since: nat)
    requires Converging(c, m, since) && Enabled(c, ev) && Reliable(c, ev) && !ev.Crash?
    ensures var d := Next(c, ev);
            |d.victors| > since && Announcing(m) !in d.pool ==>
              forall y {:trigger Told(d, m, y)} :: y in d.live ==> Told(d, m, y)
  {
    var d := Next(c, ev);
    VictorsGrow(c, ev);
    LiveStay(c, ev);
    if ev.Declare? {
      assert DeclaringOk(c, ev.n);
      IsProduced(c, ev, Announcing(m));
    } else if |d.victors| > since {
      if Announcing(m) in c.pool && !(ev.Announce? && ev.n == m) {
        Stays(c, ev, Announcing(m));
      } else {
        forall y | y in d.live ensures Told(d, m, y) {
          if ev.Announce? && ev.n == m {
            AnnouncementTells(c, ev, m, y);
          } else {
            assert Told(c, m, y);
            ToldKept(c, ev, m, since, y);
          }
        }
      }
    }
  }

  lemma StepConverges(c: Cluster, ev: Event, m: int, since: nat)
    requires Converging(c, m, since) && |c.victors| >= since && Enabled(c, ev) && Reliable(c, ev) && !ev.Crash?
    ensures Converging(Next(c, ev), m, since) && |Next(c, ev).victors| >= since
  {
    var d := Next(c, ev);
    StepKeeps(c, ev);
    LiveStay(c, ev);
    VictorsGrow(c, ev);
    forall item | item in d.pool ensures Clean(d, m, item) {
      CleanKept(c, ev, m, since, item);
    }
    WorkKept(c, ev, m);
    AnnouncedKept(c, ev, m, since);
    GoesOn(c, ev, m, since);
  }

  lemma GoesOn(c: Cluster, ev: Event, m: int, since: nat)
    requires Converging(c, m, since) && |c.victors| >= since && Enabled(c, ev) && Reliable(c, ev) && !ev.Crash?
    ensures var d := Next(c, ev);
            m in d.elec && (Underway(d, m, since) || exists n {:trigger Coming(d, m, n)} :: Coming(d, m, n))
  {
    if Underway(c, m, since) {
      if ev.GetOk? {
        NoOkForLowest(c, m, since, ev.from);
      }
      UnderwayKept(c, ev, m, since);
    } else {
      var n :| Coming(c, m, n);
      ComingKept(c, ev, m, n);
    }
  }

  lemma ConvergesFurther(c: Cluster, ev: Event, m: int, since: nat)
    requires Converging(c, m, since) && |c.victors| >= since && Enabled(c, ev) && Reliable(c, ev) && !ev.Crash?
    ensures Converging(Next(c, ev), m, since) && |Next(c, ev).victors| >= since && Next(c, ev).live == c.live
  {
    StepConverges(c, ev, m, since);
    LiveStay(c, ev);
    VictorsGrow(c, ev);
  }

  /** What a course of events says of its first step, and of the others. */
  lemma FirstStep(c: Cluster, evs: seq<Event>)
    requires evs != [] && Legal(c, evs) && AllReliable(c, evs) && NoCrash(evs)
    ensures Enabled(c, evs[0]) && Reliable(c, evs[0]) && !evs[0].Crash?
    ensures var d := Next(c, evs[0]);
            Legal(d, evs[1..]) && AllReliable(d, evs[1..]) && NoCrash(evs[1..]) && Run(c, evs) == Run(d, evs[1..])
  {
  }

  lemma {:induction false} ConvergesAlways(c: Cluster, evs: seq<Event>, m: int, since: nat)
    requires Converging(c, m, since) && |c.victors| >= since && Legal(c, evs) && AllReliable(c, evs) && NoCrash(evs)
    ensures Converging(Run(c, evs), m, since) && Run(c, evs).live == c.live
    decreases |evs|
  {
    if evs == [] {
    } else {
      FirstStep(c, evs);
      ConvergesFurther(c, evs[0], m, since);
      ConvergesAlways(Next(c, evs[0]), evs[1..], m, since);
    }
  }

  // ---- and there is always a next step until nothing is left ----------------------------------------------

  /** Some reliable step other than a crash is possible. */
  ghost predicate CanGoOn(c: Cluster) {
    exists ev {:trigger Reliable(c, ev)} :: Enabled(c, ev) && Reliable(c, ev) && !ev.Crash?
  }

  lemma CanSend(c: Cluster, n: int)
    requires WellFormed(c) && n in c.live && Begun(n) in c.pool
    ensures CanGoOn(c)
  {
    var lower := set x | x in c.live && x < n;
    assert Enabled(c, Send(n, lower, lower)) && Reliable(c, Send(n, lower, lower));
  }

  lemma MessageCanGoOn(c: Cluster, item: Item)
    requires WellFormed(c) && item in c.pool && IsMsg(item)
    ensures CanGoOn(c)
  {
    var ev := Handling(c, item);
  }

  /** The step that takes a message off the network. */
  lemma Handling(c: Cluster, item: Item) returns (ev: Event)
    requires WellFormed(c) && item in c.pool && IsMsg(item)
    ensures Enabled(c, ev) && Reliable(c, ev) && !ev.Crash? && Consumed(ev) == multiset{item}
  {
    assert Known(c, item);
    if item.to !in c.live {
      ev := Lose(item);
    } else {
      match item
      case ElectionMsg(n, to) => ev := GetElection(n, to, true);
      case OkMsg(n, to) => ev := GetOk(n, to, false);
      case CoordinatorMsg(n, to) => ev := GetCoordinator(n, to);
    }
  }

  /** Work of a node that is not a message: some step does it or something that has to come before. */
  lemma Working(c: Cluster, item: Item) returns (ev: Event)
    requires WellFormed(c) && item in c.pool && !IsMsg(item)
    ensures Enabled(c, ev) && Reliable(c, ev) && !ev.Crash?
    ensures forall x, y :: CoordinatorMsg(x, y) !in Consumed(ev)
  {
    assert Known(c, item);
    if item.n !in c.live {
      ev := Lose(item);
    } else {
      match item
      case Start(n) => ev := Begin(n);
      case Begun(n) => ev := Send(n, set x | x in c.live && x < n, set x | x in c.live && x < n);
      case Sent(n) => ev := Arm(n);
      case Timer(n, t) => ev := TimerWork(c, n, t);
      case Declaring(n) => ev := Declare(n, false);
      case Announcing(n) => ev := Announce(n, c.live - {n});
    }
  }

  /** A timer can fire, or what it has to wait for can happen. */
  lemma TimerWork(c: Cluster, n: int, t: nat) returns (ev: Event)
    requires WellFormed(c) && n in c.live && Timer(n, t) in c.pool
    ensures Enabled(c, ev) && Reliable(c, ev) && !ev.Crash?
    ensures forall x, y :: CoordinatorMsg(x, y) !in Consumed(ev)
  {
    if Begun(n) in c.pool {
      ev := Send(n, set x | x in c.live && x < n, set x | x in c.live && x < n);
    } else if !AnswersIn(c, n) {
      if x :| x in c.live && ElectionMsg(n, x) in c.pool {
        ev := Handling(c, ElectionMsg(n, x));
      } else {
        var x :| OkMsg(x, n) in c.pool;
        ev := Handling(c, OkMsg(x, n));
      }
    } else {
      ev := Fire(n, t);
    }
  }

  /** As long as anything is left to do, some reliable step is possible. */
  lemma NeverStuck(c: Cluster, item: Item)
    requires WellFormed(c) && item in c.pool
    ensures CanGoOn(c)
  {
    if IsMsg(item) {
      MessageCanGoOn(c, item);
    } else {
      var ev := Working(c, item);
    }
  }

  // ---- failover --------------------------------------------------------------------------------------

  /** StartElection has been called on a live node that does not run an election. */
  ghost predicate Called(c: Cluster, n: int) {
    n in c.live && n in c.elec && Start(n) in c.pool && !c.elec[n].running
  }

  /** No COORDINATOR of another node is under way to a live one. */
  ghost predicate NoStaleCoordinator(c: Cluster, m: int) {
    forall x, y {:trigger CoordinatorMsg(x, y)} :: CoordinatorMsg(x, y) in c.pool && y in c.live ==> x == m
  }

  /** No OK is under way to m, which for the lowest live node can only be a dead node's. */
  ghost predicate NoStaleOk(c: Cluster, m: int) {
    forall x {:trigger OkMsg(x, m)} :: OkMsg(x, m) !in c.pool
  }

  ghost predicate Agreed(c: Cluster, m: int) {
    forall y :: y in c.live ==> y in c.master && c.master[y] == m
  }

  /** Whoever is about to announce himself and alive was the lowest when he won, and still is. */
  ghost predicate AnnouncingOk(c: Cluster, n: int) {
    Announcing(n) in c.pool && n in c.live ==> Lowest(c, n)
  }

  /** What holds in every reliable run besides the invariant of module ElectionSafety. */
  ghost predicate Orderly(c: Cluster) {
    && Inv(c)
    && (forall n {:trigger WorkOk(c, n)} :: n in c.live && n in c.elec ==> WorkOk(c, n))
    && (forall n {:trigger AnnouncingOk(c, n)} :: AnnouncingOk(c, n))
  }

  lemma AnnouncingKept(c: Cluster, ev: Event, n: int)
    requires Inv(c) && Enabled(c, ev) && AnnouncingOk(c, n)
    ensures AnnouncingOk(Next(c, ev), n)
  {
    SameNodes(c, ev);
    if Announcing(n) in Next(c, ev).pool {
      AnnouncingComes(c, ev, n);
      if ev.Declare? && ev.n == n {
        assert DeclaringOk(c, n);
      }
    }
  }

  lemma AnnouncingComes(c: Cluster, ev: Event, n: int)
    requires Enabled(c, ev) && Announcing(n) in Next(c, ev).pool
    ensures Announcing(n) in c.pool || (ev.Declare? && ev.n == n)
  {
    Comes(c, ev, Announcing(n));
  }

  lemma OrderlyStep(c: Cluster, ev: Event)
    requires Orderly(c) && Enabled(c, ev) && Reliable(c, ev)
    ensures Orderly(Next(c, ev))
  {
    StepKeeps(c, ev);
    SameNodes(c, ev);
    var d := Next(c, ev);
    forall n | n in d.live && n in d.elec ensures WorkOk(d, n) {
      assert WorkOk(c, n);
      WorkKept(c, ev, n);
    }
    forall n ensures AnnouncingOk(d, n) {
      AnnouncingKept(c, ev, n);
    }
  }

  lemma {:induction false} OrderlyAlways(c: Cluster, evs: seq<Event>)
    requires Orderly(c) && Legal(c, evs) && AllReliable(c, evs)
    ensures Orderly(Run(c, evs))
    decreases |evs|
  {
    if evs == [] {
    } else {
      OrderlyStep(c, evs[0]);
      OrderlyAlways(Next(c, evs[0]), evs[1..]);
    }
  }

  lemma InitOrderly(c: Cluster)
    requires Init(c)
    ensures Orderly(c)
  {
    InitIsOk(c);
    forall n ensures AnnouncingOk(c, n) {
      assert Announcing(n) in c.pool ==> Announcing(n).Start?;
    }
  }

  lemma CalledConverges(c: Cluster, n: int, m: int)
    requires Orderly(c) && Called(c, n) && m in c.live && Lowest(c, m) && NoStaleCoordinator(c, m) && NoStaleOk(c, m)
    ensures Converging(c, m, |c.victors|)
  {
    forall item | item in c.pool ensures Clean(c, m, item) {
      assert item.Announcing? ==> AnnouncingOk(c, item.n);
    }
    assert WorkOk(c, m);
    if n != m {
      assert Coming(c, m, n);
    }
  }

  /** Where nothing can go on, everybody has been told. */
  lemma StuckAgrees(c: Cluster, m: int, since: nat)
    requires Converging(c, m, since) && !CanGoOn(c)
    ensures Agreed(c, m)
  {
    if c.pool != multiset{} {
      var item :| item in c.pool;
      NeverStuck(c, item);
    }
    forall y | y in c.live ensures y in c.master && c.master[y] == m {
      assert Told(c, m, y);
    }
  }

  /** Failover, after any reliable run, with whatever crashes and elections it had.  StartElection is called
      on a live node that runs none, nobody crashes any more, and no OK of a dead node can make the lowest
      live node step down.  Then the steps come to an end after no more than the measure of the state, however
      they interleave, and where they end every live node takes the lowest live node for the master. */
  lemma FailoverElectsLowest(start: Cluster, before: seq<Event>, evs: seq<Event>, n: int, m: int)
    requires Init(start) && Legal(start, before) && AllReliable(start, before)
    requires var c := Run(start, before);
             && Called(c, n) && m in c.live && Lowest(c, m) && NoStaleCoordinator(c, m) && NoStaleOk(c, m)
             && Legal(c, evs) && AllReliable(c, evs) && NoCrash(evs)
    ensures var c := Run(start, before);
            |evs| <= Measure(c) && (!CanGoOn(Run(c, evs)) ==> Agreed(Run(c, evs), m))
  {
    var c := Run(start, before);
    InitOrderly(start);
    OrderlyAlways(start, before);
    CalledConverges(c, n, m);
    RunsAreFinite(c, evs);
    ConvergesAlways(c, evs, m, |c.victors|);
    if !CanGoOn(Run(c, evs)) {
      StuckAgrees(Run(c, evs), m, |c.victors|);
    }
  }
}
