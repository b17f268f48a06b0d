/** Whether a failover must end in agreement, exactly (internal/election/election.go): what messages of the
    time before can still spoil. */
module ElectionAgreement {
  import opened Common
  import opened Election
  import opened ElectionCluster
  import opened ElectionSafety
  import opened ElectionConvergence
  import Paths

  // ---- an old announcement can come last ----------------------------------------------------------------

  /** Something is left besides one given message. */
  lemma OtherStep(c: Cluster, x: int, y: int) returns (ev: Event)
    requires WellFormed(c) && CoordinatorMsg(x, y) in c.pool && c.pool != multiset{CoordinatorMsg(x, y)}
    ensures Enabled(c, ev) && Reliable(c, ev) && !ev.Crash? && CoordinatorMsg(x, y) in Next(c, ev).pool
  {
    var msg := CoordinatorMsg(x, y);
    var rest := c.pool - multiset{msg};
    assert c.pool == rest + multiset{msg};
    assert rest != multiset{};
    var item :| item in rest;
    if IsMsg(item) {
      ev := Handling(c, item);
      assert msg in c.pool - Consumed(ev);
      KeepsMessage(c, ev, msg);
    } else {
      ev := Working(c, item);
      Stays(c, ev, msg);
    }
  }

  lemma KeepsMessage(c: Cluster, ev: Event, msg: Item)
    requires Enabled(c, ev) && msg in c.pool - Consumed(ev) && IsMsg(msg)
    ensures msg in Next(c, ev).pool
  {
    var rest := c.pool - Consumed(ev);
    match ev
    case Declare(n, late) => StoppingTakesATimer(rest, n, c.elec[n].okTimer, late, msg);
    case GetOk(_, n, late) => StoppingTakesATimer(rest, n, c.elec[n].okTimer, late, msg);
    case _ => assert Kept(c, ev) == rest;
  }

  /** Reliable steps that are not crashes. */
  ghost function GoodStep(): (Cluster, Event, Cluster) -> bool {
    (c, ev, d) => ReliableStep(c, ev, d) && !ev.Crash?
  }

  lemma GoodIsRun(c: Cluster, evs: seq<Event>, d: Cluster)
    requires Paths.Leads(GoodStep(), c, evs, d)
    ensures Legal(c, evs) && AllReliable(c, evs) && NoCrash(evs) && Run(c, evs) == d
  {
    Paths.EventsOnPath(GoodStep(), (ev: Event) => !ev.Crash?, c, evs, d);
    Paths.LeadsToo(GoodStep(), Reliably(), c, evs, d);
    PathIsRun(c, evs, d);
  }

  lemma First(c: Cluster, ev: Event, d: Cluster)
    requires Enabled(c, ev) && Reliable(c, ev) && !ev.Crash? && Paths.Reaches(GoodStep(), Next(c, ev), d)
    ensures Paths.Reaches(GoodStep(), c, d)
  {
    assert GoodStep()(c, ev, Next(c, ev));
    Paths.OneStep(GoodStep(), c, ev, Next(c, ev));
    Paths.ReachesTrans(GoodStep(), c, Next(c, ev), d);
  }

  lemma OnlyMessageLeft(c: Cluster, x: int, y: int)
    requires WellFormed(c) && c.pool == multiset{CoordinatorMsg(x, y)} && y in c.live
    ensures var ev := GetCoordinator(x, y);
            Enabled(c, ev) && Reliable(c, ev) && HasLastWord(Next(c, ev), x, y)
  {
    assert Known(c, CoordinatorMsg(x, y));
    var d := Next(c, GetCoordinator(x, y));
    assert d.pool == multiset{};
    forall ev | Enabled(d, ev) && !ev.Crash? ensures false {
      KeptIsOld(d, ev);
    }
  }

  ghost predicate HasLastWord(d: Cluster, x: int, y: int) {
    !CanGoOn(d) && y in d.live && y in d.master && d.master[y] == x
  }

  /** A COORDINATOR that is delivered last has the last word. */
  lemma {:induction false} LastWord(c: Cluster, x: int, y: int) returns (d: Cluster)
    requires WellFormed(c) && CoordinatorMsg(x, y) in c.pool && y in c.live
    ensures Paths.Reaches(GoodStep(), c, d) && HasLastWord(d, x, y)
    decreases Measure(c)
  {
    if c.pool == multiset{CoordinatorMsg(x, y)} {
      OnlyMessageLeft(c, x, y);
      d := Next(c, GetCoordinator(x, y));
      Paths.ReachesSelf(GoodStep(), d);
      First(c, GetCoordinator(x, y), d);
    } else {
      var ev := OtherStep(c, x, y);
      StepDecreases(c, ev);
      StepWellFormed(c, ev);
      LiveStay(c, ev);
      d := LastWord(Next(c, ev), x, y);
      First(c, ev, d);
    }
  }

  /** Every reliable way to the end leads to agreement on m. */
  ghost predicate AgreesInTheEnd(c: Cluster, m: int) {
    forall d {:trigger Paths.Reaches(GoodStep(), c, d)} ::
      Paths.Reaches(GoodStep(), c, d) && !CanGoOn(d) ==> Agreed(d, m)
  }

  lemma StaleCoordinatorDisagrees(c: Cluster, x: int, y: int, m: int)
    requires WellFormed(c) && CoordinatorMsg(x, y) in c.pool && y in c.live && x != m
    ensures !AgreesInTheEnd(c, m)
  {
    var d := LastWord(c, x, y);
    assert !Agreed(d, m);
  }

  // ---- a node that has as good as won ----------------------------------------------------------------------

  /** m is on its last way to its announcement, or everybody alive has been told of it already. */
  ghost predicate Won(c: Cluster, m: int) {
    || Declaring(m) in c.pool || Announcing(m) in c.pool
    || forall y {:trigger Told(c, m, y)} :: y in c.live ==> Told(c, m, y)
  }

  /** No other node announces itself any more. */
  ghost predicate Undisputed(c: Cluster, m: int) {
    && Inv(c) && m in c.live && Lowest(c, m)
    && forall item {:trigger Uncontested(c, m, item)} :: item in c.pool ==> Uncontested(c, m, item)
  }

  predicate Uncontested(c: Cluster, m: int, item: Item) {
    match item
    case Announcing(n) => n == m || n !in c.live
    case CoordinatorMsg(n, to) => n == m || to !in c.live
    case _ => true
  }

  lemma UndisputedStep(c: Cluster, ev: Event, m: int)
    requires Undisputed(c, m) && Enabled(c, ev) && Reliable(c, ev) && !ev.Crash?
    ensures Undisputed(Next(c, ev), m)
  {
    var d := Next(c, ev);
    StepKeeps(c, ev);
    LiveStay(c, ev);
    forall item | item in d.pool ensures Uncontested(d, m, item) {
      Comes(c, ev, item);
      if item in c.pool {
        assert Uncontested(c, m, item);
      } else {
        MadeUncontested(c, ev, m, item);
      }
    }
  }

  lemma MadeUncontested(c: Cluster, ev: Event, m: int, item: Item)
    requires Undisputed(c, m) && Enabled(c, ev) && !ev.Crash? && item in Produced(c, ev)
    ensures Uncontested(c, m, item)
  {
    match ev
    case Declare(n, _) => assert DeclaringOk(c, n);
    case Announce(n, _) => assert Uncontested(c, m, Announcing(n));
    case _ =>
  }

  lemma MasterStays(c: Cluster, ev: Event, m: int, y: int)
    requires Undisputed(c, m) && Enabled(c, ev) && y in c.live && y in c.master && c.master[y] == m
    ensures y in Next(c, ev).master && Next(c, ev).master[y] == m
  {
    if ev.Announce? {
      assert Uncontested(c, m, Announcing(ev.n));
    } else if ev.GetCoordinator? {
      assert Uncontested(c, m, CoordinatorMsg(ev.master, ev.n));
    }
    MastersAfter(c, ev, m, y);
  }

  lemma ToldStays(c: Cluster, ev: Event, m: int, y: int)
    requires Undisputed(c, m) && Enabled(c, ev) && Reliable(c, ev) && !ev.Crash? && y in c.live && Told(c, m, y)
    ensures Told(Next(c, ev), m, y)
  {
    if y in c.master && c.master[y] == m {
      MasterStays(c, ev, m, y);
    } else if CoordinatorMsg(m, y) in Consumed(ev) {
      assert ev == GetCoordinator(m, y);
    } else {
      Stays(c, ev, CoordinatorMsg(m, y));
    }
  }

  lemma AnnouncingStays(c: Cluster, ev: Event, m: int)
    requires Enabled(c, ev) && Reliable(c, ev) && !ev.Crash? && Announcing(m) in c.pool && m in c.live
    ensures Won(Next(c, ev), m)
  {
    var d := Next(c, ev);
    if Announcing(m) in Consumed(ev) {
      LiveStay(c, ev);
      forall y | y in d.live ensures Told(d, m, y) {
        AnnouncementTells(c, ev, m, y);
      }
    } else {
      Stays(c, ev, Announcing(m));
    }
  }

  lemma WonStays(c: Cluster, ev: Event, m: int)
    requires Undisputed(c, m) && Enabled(c, ev) && Reliable(c, ev) && !ev.Crash? && Won(c, m)
    ensures Won(Next(c, ev), m)
  {
    if Announcing(m) in c.pool {
      AnnouncingStays(c, ev, m);
    } else if Declaring(m) in c.pool {
      if Declaring(m) in Consumed(ev) {
        IsProduced(c, ev, Announcing(m));
      } else {
        Stays(c, ev, Declaring(m));
      }
    } else {
      LiveStay(c, ev);
      forall y | y in Next(c, ev).live ensures Told(Next(c, ev), m, y) {
        assert Told(c, m, y);
        ToldStays(c, ev, m, y);
      }
    }
  }

  ghost predicate Winning(c: Cluster, m: int) {
    Undisputed(c, m) && Won(c, m)
  }

  lemma WinningStep(c: Cluster, ev: Event, m: int)
    requires Winning(c, m) && Enabled(c, ev) && Reliable(c, ev) && !ev.Crash?
    ensures Winning(Next(c, ev), m)
  {
    UndisputedStep(c, ev, m);
    WonStays(c, ev, m);
  }

  lemma EmptyInTheEnd(d: Cluster)
    requires WellFormed(d) && !CanGoOn(d)
    ensures d.pool == multiset{}
  {
    if d.pool != multiset{} {
      var item :| item in d.pool;
      NeverStuck(d, item);
    }
  }

  lemma WonInTheEnd(d: Cluster, m: int)
    requires Winning(d, m) && !CanGoOn(d)
    ensures Agreed(d, m)
  {
    EmptyInTheEnd(d);
    forall y | y in d.live ensures y in d.master && d.master[y] == m {
      assert Told(d, m, y);
    }
  }

  /** Whatever comes, a node that has as good as won is what all agree on. */
  lemma WonAgrees(c: Cluster, m: int)
    requires Undisputed(c, m) && Won(c, m)
    ensures AgreesInTheEnd(c, m)
  {
    var winning := x => Winning(x, m);
    forall x, ev, y | winning(x) && GoodStep()(x, ev, y) ensures winning(y) {
      WinningStep(x, ev, m);
    }
    forall d | Paths.Reaches(GoodStep(), c, d) && !CanGoOn(d) ensures Agreed(d, m) {
      Paths.Kept(GoodStep(), winning, c, d);
      WonInTheEnd(d, m);
    }
  }

  // ---- an OK that comes too late ---------------------------------------------------------------------------

  predicate IsOkTo(item: Item, m: int) {
    item.OkMsg? && item.to == m
  }

  /** What is held back: answers to m, and m's timers, which wait for them. */
  predicate Held(item: Item, m: int) {
    IsOkTo(item, m) || (item.Timer? && item.n == m)
  }

  ghost predicate OkComing(c: Cluster, m: int) {
    exists z {:trigger OkMsg(z, m)} :: OkMsg(z, m) in c.pool
  }

  /** m has not won, an OK is under way to it, and it takes dead node x for alive. */
  ghost predicate Spoiling(c: Cluster, m: int, x: int, y: int) {
    && Undisputed(c, m) && x in c.ids && x < m && OkComing(c, m)
    && Declaring(m) !in c.pool && Announcing(m) !in c.pool && y in c.live && !Told(c, m, y)
  }

  /** Steps that hold back what is to be held back, and do not lead m straight to a declaration. */
  predicate HoldsBack(ev: Event, m: int) {
    && !((ev.GetOk? || ev.Fire?) && ev.n == m)
    && (ev.Send? && ev.n == m ==> ev.lower != {})
    && !(ev.Lose? && IsOkTo(ev.item, m))
  }

  lemma HoldingTimer(c: Cluster, m: int, n: int, t: nat) returns (ev: Event)
    requires WellFormed(c) && n in c.live && Timer(n, t) in c.pool && n != m && m in c.live
    ensures Enabled(c, ev) && Reliable(c, ev) && !ev.Crash? && HoldsBack(ev, m)
  {
    if Begun(n) in c.pool {
      ev := Send(n, set x | x in c.live && x < n, set x | x in c.live && x < n);
    } else if !AnswersIn(c, n) {
      if x :| x in c.live && ElectionMsg(n, x) in c.pool {
        assert Known(c, ElectionMsg(n, x));
        ev := GetElection(n, x, true);
      } else {
        var x :| OkMsg(x, n) in c.pool;
        ev := GetOk(x, n, false);
      }
    } else {
      ev := Fire(n, t);
    }
  }

  lemma HoldingWork(c: Cluster, m: int, x: int, item: Item) returns (ev: Event)
    requires Undisputed(c, m) && x in c.ids && x < m && item in c.pool && !Held(item, m) && !IsMsg(item)
    requires Declaring(m) !in c.pool && Announcing(m) !in c.pool
    ensures Enabled(c, ev) && Reliable(c, ev) && !ev.Crash? && HoldsBack(ev, m)
  {
    assert Known(c, item) && Uncontested(c, m, item);
    if item.n !in c.live {
      ev := Lose(item);
    } else {
      assert item.Declaring? ==> DeclaringOk(c, item.n);
      match item
      case Start(n) => ev := Begin(n);
      case Begun(n) =>
        ev := if n == m then Send(m, {x}, {})
              else Send(n, set z | z in c.live && z < n, set z | z in c.live && z < n);
      case Sent(n) => ev := Arm(n);
      case Timer(n, t) => ev := HoldingTimer(c, m, n, t);
    }
  }

  lemma HoldingStep(c: Cluster, m: int, x: int, item: Item) returns (ev: Event)
    requires Undisputed(c, m) && x in c.ids && x < m && item in c.pool && !Held(item, m)
    requires Declaring(m) !in c.pool && Announcing(m) !in c.pool
    ensures Enabled(c, ev) && Reliable(c, ev) && !ev.Crash? && HoldsBack(ev, m)
  {
    if IsMsg(item) {
      ev := Handling(c, item);
    } else {
      ev := HoldingWork(c, m, x, item);
    }
  }

  lemma NoDeclarationMade(c: Cluster, ev: Event, m: int)
    requires Enabled(c, ev) && HoldsBack(ev, m) && Declaring(m) !in c.pool
    ensures Declaring(m) !in Produced(c, ev) && Announcing(m) !in Produced(c, ev)
  {
  }

  lemma NotDeclared(c: Cluster, ev: Event, m: int)
    requires Enabled(c, ev) && HoldsBack(ev, m) && Declaring(m) !in c.pool && Announcing(m) !in c.pool
    ensures Declaring(m) !in Next(c, ev).pool && Announcing(m) !in Next(c, ev).pool
  {
    NoDeclarationMade(c, ev, m);
    NotComing(c, ev, Declaring(m));
    NotComing(c, ev, Announcing(m));
  }

  lemma NotComing(c: Cluster, ev: Event, item: Item)
    requires Enabled(c, ev) && item !in c.pool && item !in Produced(c, ev)
    ensures item !in Next(c, ev).pool
  {
    KeptIsOld(c, ev);
  }

  lemma NotMessaged(c: Cluster, ev: Event, m: int, y: int)
    requires Enabled(c, ev) && Announcing(m) !in c.pool && CoordinatorMsg(m, y) !in c.pool
    ensures CoordinatorMsg(m, y) !in Produced(c, ev)
  {
  }

  lemma NotTold(c: Cluster, ev: Event, m: int, y: int)
    requires WellFormed(c) && Enabled(c, ev) && Announcing(m) !in c.pool && y in c.live && !Told(c, m, y)
    ensures !Told(Next(c, ev), m, y)
  {
    NotMessaged(c, ev, m, y);
    NotComing(c, ev, CoordinatorMsg(m, y));
    MasterNotMade(c, ev, m, y);
  }

  lemma MasterNotMade(c: Cluster, ev: Event, m: int, y: int)
    requires Enabled(c, ev) && WellFormed(c) && y in c.ids && c.master[y] != m
    requires ev != GetCoordinator(m, y) && !(ev.Announce? && ev.n == m)
    ensures y in Next(c, ev).master && Next(c, ev).master[y] != m
  {
    SameMasters(c, ev);
  }

  lemma SpoilingKept(c: Cluster, ev: Event, m: int, x: int, y: int)
    requires Spoiling(c, m, x, y) && Enabled(c, ev) && Reliable(c, ev) && !ev.Crash? && HoldsBack(ev, m)
    ensures Spoiling(Next(c, ev), m, x, y)
  {
    var z :| OkMsg(z, m) in c.pool;
    Stays(c, ev, OkMsg(z, m));
    UndisputedStep(c, ev, m);
    NotDeclared(c, ev, m);
    NotTold(c, ev, m, y);
    LiveStay(c, ev);
    SameNodes(c, ev);
  }

  /** Nothing is left but answers to m and its timers. */
  ghost predicate Spoilt(c: Cluster, m: int, y: int) {
    && Undisputed(c, m) && (forall item {:trigger Held(item, m)} :: item in c.pool ==> Held(item, m))
    && y in c.live && !Told(c, m, y) && m in c.elec && (c.elec[m].running ==> OkComing(c, m))
  }

  lemma NothingLeft(c: Cluster)
    requires c.pool == multiset{}
    ensures !CanGoOn(c)
  {
    forall ev | Enabled(c, ev) && !ev.Crash? ensures false {
      KeptIsOld(c, ev);
    }
  }

  lemma NothingMade(c: Cluster, ev: Event, m: int, y: int)
    requires Spoilt(c, m, y) && Enabled(c, ev) && (ev.GetOk? || (ev.Fire? && !OkComing(c, m)))
    ensures ev.n == m && Produced(c, ev) == multiset{}
  {
    if ev.GetOk? {
      assert Held(OkMsg(ev.from, ev.n), m);
    } else {
      assert Held(Timer(ev.n, ev.t), m);
    }
  }

  lemma OnlyHeldStays(c: Cluster, ev: Event, m: int)
    requires Enabled(c, ev) && Produced(c, ev) == multiset{}
    requires forall item {:trigger Held(item, m)} :: item in c.pool ==> Held(item, m)
    ensures forall item {:trigger Held(item, m)} :: item in Next(c, ev).pool ==> Held(item, m)
  {
    forall item | item in Next(c, ev).pool ensures Held(item, m) {
      Comes(c, ev, item);
    }
  }

  /** After an OK m does not run; a timer changes nothing. */
  lemma RunsNoMore(c: Cluster, ev: Event, m: int)
    requires WellFormed(c) && Enabled(c, ev) && m in c.elec && (ev.GetOk? || ev.Fire?) && ev.n == m
    requires c.elec[m].running ==> ev.GetOk?
    ensures m in Next(c, ev).elec && !Next(c, ev).elec[m].running
  {
  }

  lemma SpoiltStep(c: Cluster, ev: Event, m: int, y: int)
    requires Spoilt(c, m, y) && Enabled(c, ev) && Reliable(c, ev) && !ev.Crash?
    requires ev.GetOk? || (ev.Fire? && !OkComing(c, m))
    ensures Spoilt(Next(c, ev), m, y)
  {
    NothingMade(c, ev, m, y);
    UndisputedStep(c, ev, m);
    LiveStay(c, ev);
    assert Announcing(m) in c.pool ==> Held(Announcing(m), m);
    NotTold(c, ev, m, y);
    OnlyHeldStays(c, ev, m);
    RunsNoMore(c, ev, m);
  }

  lemma SpoiltGoesOn(c: Cluster, m: int, y: int) returns (ev: Event)
    requires Spoilt(c, m, y) && c.pool != multiset{}
    ensures Enabled(c, ev) && Reliable(c, ev) && !ev.Crash? && (ev.GetOk? || (ev.Fire? && !OkComing(c, m)))
  {
    if z :| OkMsg(z, m) in c.pool {
      ev := GetOk(z, m, false);
    } else {
      var item :| item in c.pool;
      assert Held(item, m);
      ev := Fire(m, item.t);
      forall n | n in c.live ensures ElectionMsg(m, n) !in c.pool {
        assert ElectionMsg(m, n) in c.pool ==> Held(ElectionMsg(m, n), m);
      }
      assert Begun(m) in c.pool ==> Held(Begun(m), m);
    }
  }

  lemma {:induction false} SpoiltEnds(c: Cluster, m: int, y: int) returns (d: Cluster)
    requires Spoilt(c, m, y)
    ensures Paths.Reaches(GoodStep(), c, d) && !CanGoOn(d) && !Agreed(d, m)
    decreases Measure(c)
  {
    if c.pool == multiset{} {
      NothingLeft(c);
      Paths.ReachesSelf(GoodStep(), c);
      d := c;
    } else {
      var ev := SpoiltGoesOn(c, m, y);
      SpoiltStep(c, ev, m, y);
      StepDecreases(c, ev);
      d := SpoiltEnds(Next(c, ev), m, y);
      First(c, ev, d);
    }
  }

  /** All else runs to its end; then m hears the OK, steps down, and nobody takes its place. */
  lemma {:induction false} LateOkSpoils(c: Cluster, m: int, x: int, y: int) returns (d: Cluster)
    requires Spoiling(c, m, x, y)
    ensures Paths.Reaches(GoodStep(), c, d) && !CanGoOn(d) && !Agreed(d, m)
    decreases Measure(c)
  {
    if item :| item in c.pool && !Held(item, m) {
      var ev := HoldingStep(c, m, x, item);
      SpoilingKept(c, ev, m, x, y);
      StepDecreases(c, ev);
      d := LateOkSpoils(Next(c, ev), m, x, y);
      First(c, ev, d);
    } else {
      assert forall item {:trigger Held(item, m)} :: item in c.pool ==> Held(item, m);
      d := SpoiltEnds(c, m, y);
    }
  }

  // ---- answers come from below -------------------------------------------------------------------------------

  predicate OkUp(item: Item) {
    item.OkMsg? ==> item.n < item.to
  }

  ghost predicate OksUp(c: Cluster) {
    forall item {:trigger OkUp(item)} :: item in c.pool ==> OkUp(item)
  }

  lemma MadeUp(c: Cluster, ev: Event, item: Item)
    requires Enabled(c, ev) && item in Produced(c, ev)
    ensures OkUp(item)
  {
  }

  lemma OksUpStep(c: Cluster, ev: Event)
    requires OksUp(c) && Enabled(c, ev)
    ensures OksUp(Next(c, ev))
  {
    forall item | item in Next(c, ev).pool ensures OkUp(item) {
      Comes(c, ev, item);
      if item in c.pool {
        assert OkUp(item);
      } else {
        MadeUp(c, ev, item);
      }
    }
  }

  lemma InitOksUp(c: Cluster)
    requires Init(c)
    ensures OksUp(c)
  {
    forall item | item in c.pool ensures OkUp(item) {
      assert item.Start?;
    }
  }

  lemma {:induction false} OksUpAlways(c: Cluster, evs: seq<Event>)
    requires OksUp(c) && Legal(c, evs)
    ensures OksUp(Run(c, evs))
    decreases |evs|
  {
    if evs == [] {
    } else {
      OksUpStep(c, evs[0]);
      OksUpAlways(Next(c, evs[0]), evs[1..]);
    }
  }

  // ---- when a failover must end in agreement -------------------------------------------------------------------

  lemma UndisputedNow(c: Cluster, m: int)
    requires Orderly(c) && m in c.live && Lowest(c, m) && NoStaleCoordinator(c, m)
    ensures Undisputed(c, m)
  {
    forall item | item in c.pool ensures Uncontested(c, m, item) {
      assert item.Announcing? ==> AnnouncingOk(c, item.n);
    }
  }

  lemma StaleOkDisagrees(c: Cluster, m: int)
    requires Undisputed(c, m) && OksUp(c) && OkComing(c, m) && !Won(c, m)
    ensures !AgreesInTheEnd(c, m)
  {
    var x :| OkMsg(x, m) in c.pool;
    assert OkUp(OkMsg(x, m)) && Known(c, OkMsg(x, m));
    var y :| y in c.live && !Told(c, m, y);
    var d := LateOkSpoils(c, m, x, y);
  }

  lemma CalledAgrees(start: Cluster, before: seq<Event>, n: int, m: int)
    requires Init(start) && Legal(start, before) && AllReliable(start, before)
    requires var c := Run(start, before);
             Called(c, n) && m in c.live && Lowest(c, m) && NoStaleCoordinator(c, m) && NoStaleOk(c, m)
    ensures AgreesInTheEnd(Run(start, before), m)
  {
    var c := Run(start, before);
    forall d | Paths.Reaches(GoodStep(), c, d) && !CanGoOn(d) ensures Agreed(d, m) {
      var evs :| Paths.Leads(GoodStep(), c, evs, d);
      GoodIsRun(c, evs, d);
      FailoverElectsLowest(start, before, evs, n, m);
    }
  }

  lemma AgreesIff(c: Cluster, m: int)
    requires Orderly(c) && OksUp(c) && m in c.live && Lowest(c, m)
    requires NoStaleCoordinator(c, m) && NoStaleOk(c, m) ==> AgreesInTheEnd(c, m)
    ensures AgreesInTheEnd(c, m) <==> NoStaleCoordinator(c, m) && (NoStaleOk(c, m) || Won(c, m))
  {
    if !NoStaleCoordinator(c, m) {
      var x, y :| CoordinatorMsg(x, y) in c.pool && y in c.live && x != m;
      StaleCoordinatorDisagrees(c, x, y, m);
    } else {
      UndisputedNow(c, m);
      if Won(c, m) {
        WonAgrees(c, m);
      } else if !NoStaleOk(c, m) {
        StaleOkDisagrees(c, m);
      }
    }
  }

  /** After any reliable run with crashes a live node that runs no election is told to start one.  Every
      reliable way to the end, without further crashes, leads to agreement on the lowest live node if and only
      if no COORDINATOR of another node is under way to a live one, and no OK to the lowest, which only a dead
      node can have sent; unless, as for the OK, the lowest is about to declare itself already, or everybody
      has been told. */
  lemma FailoverAgreesIff(start: Cluster, before: seq<Event>, n: int, m: int)
    requires Init(start) && Legal(start, before) && AllReliable(start, before)
    requires var c := Run(start, before); Called(c, n) && m in c.live && Lowest(c, m)
    ensures var c := Run(start, before);
            AgreesInTheEnd(c, m) <==> NoStaleCoordinator(c, m) && (NoStaleOk(c, m) || Won(c, m))
  {
    var c := Run(start, before);
    InitOrderly(start);
    OrderlyAlways(start, before);
    InitOksUp(start);
    OksUpAlways(start, before);
    if NoStaleCoordinator(c, m) && NoStaleOk(c, m) {
      CalledAgrees(start, before, n, m);
    }
    AgreesIff(c, m);
  }

  // ---- it does happen -----------------------------------------------------------------------------------------

  predicate Plain(item: Item) {
    !item.Declaring? && !item.Announcing? && !item.CoordinatorMsg?
  }

  /** Nobody is about to win, and node n, which does not take m for the master, is told to start an election. */
  ghost predicate Waits(c: Cluster, m: int, n: int) {
    && WellFormed(c) && m in c.live && n in c.live && m < n && c.master[n] != m
    && Start(n) in c.pool && !c.elec[n].running
    && forall item {:trigger Plain(item)} :: item in c.pool ==> Plain(item)
  }

  /** The first steps of m's election, and a crash. */
  predicate Early(ev: Event, m: int, n: int) {
    || ev == Begin(m) || (ev.Send? && ev.n == m && ev.lower != {}) || ev.GetElection?
    || (ev.Crash? && ev.n != m && ev.n != n)
  }

  lemma EarlyIsPlain(c: Cluster, ev: Event, m: int, n: int, item: Item)
    requires Enabled(c, ev) && Early(ev, m, n) && item in Produced(c, ev)
    ensures Plain(item)
  {
  }

  lemma EarlyEngines(c: Cluster, ev: Event, m: int, n: int)
    requires WellFormed(c) && Enabled(c, ev) && Early(ev, m, n) && m < n && n in c.ids
    ensures n in Next(c, ev).elec && Next(c, ev).elec[n] == c.elec[n] && Next(c, ev).master == c.master
  {
  }

  lemma WaitsStill(c: Cluster, ev: Event, m: int, n: int)
    requires Waits(c, m, n) && Enabled(c, ev) && Early(ev, m, n)
    ensures Waits(Next(c, ev), m, n)
  {
    StepWellFormed(c, ev);
    Stays(c, ev, Start(n));
    EarlyEngines(c, ev, m, n);
    forall item | item in Next(c, ev).pool ensures Plain(item) {
      Comes(c, ev, item);
      if item in c.pool {
        assert Plain(item);
      } else {
        EarlyIsPlain(c, ev, m, n, item);
      }
    }
  }

  lemma WaitsIsOpen(c: Cluster, m: int, n: int)
    requires Waits(c, m, n)
    ensures Called(c, n) && NoStaleCoordinator(c, m) && !Won(c, m)
  {
    forall x, y ensures CoordinatorMsg(x, y) !in c.pool {
      assert !Plain(CoordinatorMsg(x, y));
    }
    assert !Plain(Declaring(m)) && !Plain(Announcing(m));
    assert !Told(c, m, n);
  }

  lemma EarlyStep(start: Cluster, c: Cluster, ev: Event, m: int, n: int)
    requires Paths.Reaches(Reliably(), start, c) && Waits(c, m, n)
    requires Enabled(c, ev) && Reliable(c, ev) && Early(ev, m, n)
    ensures Paths.Reaches(Reliably(), start, Next(c, ev)) && Waits(Next(c, ev), m, n)
  {
    ReachesOn(start, c, ev, Next(c, ev));
    WaitsStill(c, ev, m, n);
  }

  ghost predicate OnTheWay(start: Cluster, c: Cluster, m: int, n: int, item: Item) {
    Paths.Reaches(Reliably(), start, c) && Waits(c, m, n) && c.live == start.live && item in c.pool
  }

  lemma SecondBegins(start: Cluster, m: int, n: int) returns (c: Cluster)
    requires Waits(start, m, n) && Start(m) in start.pool && !start.elec[m].running
    ensures OnTheWay(start, c, m, n, Begun(m))
  {
    Paths.ReachesSelf(Reliably(), start);
    IsProduced(start, Begin(m), Begun(m));
    EarlyStep(start, start, Begin(m), m, n);
    LiveStay(start, Begin(m));
    c := Next(start, Begin(m));
  }

  lemma SecondSends(start: Cluster, a: Cluster, x: int, m: int, n: int) returns (c: Cluster)
    requires OnTheWay(start, a, m, n, Begun(m)) && x in a.live && x < m
    ensures OnTheWay(start, c, m, n, ElectionMsg(m, x))
  {
    var lower := set z | z in a.live && z < m;
    var ev := Send(m, lower, lower);
    assert x in lower && ElectionMsg(m, x) in Challenges(m, lower);
    IsProduced(a, ev, ElectionMsg(m, x));
    EarlyStep(start, a, ev, m, n);
    LiveStay(a, ev);
    c := Next(a, ev);
  }

  lemma FirstAnswers(start: Cluster, a: Cluster, x: int, m: int, n: int) returns (c: Cluster)
    requires OnTheWay(start, a, m, n, ElectionMsg(m, x)) && x in a.live && x < m
    ensures OnTheWay(start, c, m, n, OkMsg(x, m))
  {
    var ev := GetElection(m, x, true);
    IsProduced(a, ev, OkMsg(x, m));
    EarlyStep(start, a, ev, m, n);
    LiveStay(a, ev);
    c := Next(a, ev);
  }

  lemma FirstDies(start: Cluster, a: Cluster, x: int, m: int, n: int) returns (c: Cluster)
    requires OnTheWay(start, a, m, n, OkMsg(x, m)) && x in a.live && x < m
    ensures Paths.Reaches(Reliably(), start, c) && Waits(c, m, n)
    ensures OkMsg(x, m) in c.pool && c.live == start.live - {x}
  {
    Stays(a, Crash(x), OkMsg(x, m));
    EarlyStep(start, a, Crash(x), m, n);
    c := Next(a, Crash(x));
  }

  /** Node x, the only one below m, answers m's challenge and dies. */
  lemma AnswersAndDies(start: Cluster, x: int, m: int, n: int) returns (c: Cluster)
    requires Waits(start, m, n) && x in start.live && x < m && Start(m) in start.pool && !start.elec[m].running
    ensures Paths.Reaches(Reliably(), start, c) && Waits(c, m, n)
    ensures OkMsg(x, m) in c.pool && c.live == start.live - {x}
  {
    c := SecondBegins(start, m, n);
    c := SecondSends(start, c, x, m, n);
    c := FirstAnswers(start, c, x, m, n);
    c := FirstDies(start, c, x, m, n);
  }

  /** In every cluster with a node x, the next one m and another n, of which m and n are told to start an
      election: a reliable run with one crash leads to a state in which the OK of a dead node is under way to
      the lowest live one, and from which a failover can end without agreement, although no COORDINATOR is
      under way. */
  lemma LateOkHappens(start: Cluster, x: int, m: int, n: int) returns (evs: seq<Event>)
    requires Init(start) && {x, m, n} <= start.live && x < m < n
    requires forall z :: z in start.live && z < m ==> z == x
    requires Start(m) in start.pool && Start(n) in start.pool && start.master[n] != m
    ensures Legal(start, evs) && AllReliable(start, evs)
    ensures var c := Run(start, evs);
            && Called(c, n) && m in c.live && Lowest(c, m) && NoStaleCoordinator(c, m)
            && OkMsg(x, m) in c.pool && x !in c.live && !AgreesInTheEnd(c, m)
  {
    assert Waits(start, m, n) by {
      forall item | item in start.pool ensures Plain(item) {
        assert item.Start?;
      }
    }
    var c := AnswersAndDies(start, x, m, n);
    evs :| Paths.Leads(Reliably(), start, evs, c);
    PathIsRun(start, evs, c);
    WaitsIsOpen(c, m, n);
    assert !NoStaleOk(c, m);
    FailoverAgreesIff(start, evs, n, m);
  }
}
