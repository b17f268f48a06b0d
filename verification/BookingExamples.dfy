/** Concrete runs of two branches, from the first state on, to the failures that the other booking modules
    delimit (internal/service/ticket_service.go). */
module BookingExamples {
  import opened Common
  import opened Database
  import opened IdAllocation
  import opened LockEngine
  import opened Booking
  import opened BookingRuns
  import opened BookingLimits
  import opened BookingCloses
  import opened BookingMarks
  import opened BookingRequests
  import opened BookingMoves
  import L = LockCluster
  import P = LockPaths
  import G = LockGrants
  import Loss = LockLoss
  import R = Redistribution

  const ENGINEER := 10_000_000_001
  const OTHER := 10_000_000_002

  /** Two branches; the first is the master's and has the engineers. */
  function TwoBranches(): System {
    System(L.Cluster(map[1 := LockEngine.IDLE, 2 := LockEngine.IDLE], map[1 := 1, 2 := 1], map[], multiset{}),
           map[1 := EMPTY.(ingenieros := map[ENGINEER := Ingeniero(ENGINEER, "Juan", 1, 1),
                                             OTHER := Ingeniero(OTHER, "Ana", 1, 1)]),
               2 := EMPTY],
           map[], multiset{}, map[], {}, {})
  }

  /** Between two raises: nobody has asked for the lock. */
  ghost predicate AtRest(s: System, m: int) {
    m in s.lock.engines && s.lock.engines[m].holder == Nobody && NobodyActive(s)
  }

  lemma TwoBranchesInit()
    ensures var s := TwoBranches(); Init(s, 1) && AtRest(s, 1) && Available(s, ENGINEER) && Available(s, OTHER)
  {
    assert HomeOf(ENGINEER) == 1 && HomeOf(OTHER) == 1;
  }

  lemma TwoBranchesStart()
    ensures var s := TwoBranches();
            Init(s, 1) && InRun(s, 1) && AtRest(s, 1) && Available(s, ENGINEER) && Available(s, OTHER)
  {
    TwoBranchesInit();
    StartsInRun(TwoBranches(), 1);
  }

  lemma StartsInRun(s: System, m: int)
    requires Init(s, m) && m in s.shards
    ensures InRun(s, m)
  {
    ReachesSelf(InOrder, s);
    RunsAreInRun(s, m, s);
  }

  // ---- one raise after the other ----------------------------------------------------------------------

  /** Branch k takes the free lock. */
  lemma RaiseBy(w: Manner, s: System, m: int, k: int) returns (d: System, r: ReqId)
    requires Sound(s, m) && AtRest(s, m) && k in s.shards
    ensures Reaches(w, s, d) && d == s.(lock := d.lock) && Sound(d, m) && Begins(d, r)
    ensures d.lock.attempts[r].owner == k && d.lock.engines[m].queue == []
  {
    r := P.FreshRequest(s.lock);
    var lock := P.TakesTheLock(s.lock, m, k, r);
    LockMoves(w, s, lock);
    SoundAfter(s, lock, m, r);
    d := s.(lock := lock);
  }

  lemma ReleasedQueue(c: L.Cluster, m: int, r: ReqId)
    requires L.Inv(c) && L.OneMaster(c, m) && L.At(c, r, L.Held) && m in c.engines && c.engines[m].queue == []
    ensures L.Enabled(c, L.LetGo(r))
    ensures var d := L.Next(c, L.LetGo(r));
            && m in d.engines && d.engines[m].queue == []
            && (d.engines[m].holder == Nobody || (d.engines[m].holder == r != Nobody && Release(r, m) in d.msgs))
  {
    assert L.AttemptOk(c, r);
    if c.attempts[r].local {
      P.LocalReleasePasses(c, m, r);
      assert L.EngineOk(L.Next(c, L.LetGo(r)), m) by {
        L.StepKeeps(c, L.LetGo(r));
      }
    } else {
      P.RemoteReleaseSends(c, m, r);
    }
  }

  lemma ReleaseReceived(s: System, m: int, r: ReqId)
    requires Sound(s, m) && NobodyActive(s) && s.lock.engines[m].queue == []
    requires s.lock.engines[m].holder == r != Nobody && Release(r, m) in s.lock.msgs
    ensures var ev := L.Deliver(Release(r, m));
            && L.Enabled(s.lock, ev)
            && var d := s.(lock := L.Next(s.lock, ev)); Sound(d, m) && AtRest(d, m)
  {
    var ev := L.Deliver(Release(r, m));
    P.RemoteReleasePasses(s.lock, m, r);
    L.StepKeeps(s.lock, ev);
    L.OneMasterKeeps(s.lock, ev, m);
    G.RegisteredStep(s.lock, ev);
    var d := s.(lock := L.Next(s.lock, ev));
    forall q | q in d.raises ensures Started(d, q) {
      assert Started(s, q);
    }
    forall q ensures !Active(d, q) {
      assert !Active(s, q);
    }
  }

  /** The raise releases, and nobody else wants the lock. */
  lemma GivesBack(w: Manner, s: System, m: int, r: ReqId) returns (d: System)
    requires Sound(s, m) && Active(s, r) && s.lock.engines[m].queue == []
    requires Enabled(s, Finish(r)) && Allowed(w, s, Finish(r))
    ensures Reaches(w, s, d) && d == s.(lock := d.lock) && Sound(d, m) && AtRest(d, m)
  {
    ReleaseIsSound(s, m, r);
    ReleasedQueue(s.lock, m, r);
    OneStep(w, s, Finish(r));
    d := Next(s, Finish(r));
    if d.lock.engines[m].holder != Nobody {
      var ev := L.Deliver(Release(r, m));
      ReleaseReceived(d, m, r);
      ReachesOn(w, s, d, LockStep(ev));
      d := Next(d, LockStep(ev));
    }
  }

  /** Ticket id has come to branch k, for engineer e; nobody else's availability need be as it was but x's. */
  ghost predicate TicketAdded(s: System, d: System, k: int, id: int, e: int, x: int) {
    && k in s.shards && Unused(s, id) && HomeOf(id) == k && d.shards.Keys == s.shards.Keys
    && d.booked == s.booked[id := e] && d.freed == s.freed && d.closing == s.closing
    && d.shards[k].tickets == s.shards[k].tickets[id := OpenTicket(id, e, k)]
    && (forall n :: n in s.shards && n != k ==> d.shards[n].tickets == s.shards[n].tickets)
    && (Available(s, x) ==> Available(d, x))
    && (forall n :: n in s.shards ==> d.shards[n].ingenieros.Keys == s.shards[n].ingenieros.Keys)
  }

  lemma JustBookedAdds(s: System, b: System, r: ReqId, k: int, e: int, id: int, f: System, d: System, x: int)
    requires k in s.shards && b == s.(lock := b.lock) && Unused(s, id) && HomeOf(id) == k
    requires Untouched(JustBooked(b, r, k, e, id), f, x) && d == f.(lock := d.lock)
    ensures TicketAdded(s, d, k, id, e, x)
  {
  }

  /** In good order: branch k books engineer e, who is unavailable afterwards, and nothing happens to x. */
  lemma BooksInOrder(s: System, m: int, k: int, e: int, x: int) returns (d: System, id: int)
    requires InRun(s, m) && AtRest(s, m) && k in s.shards && Available(s, e) && IdLeft(s, k) && e != x
    ensures Reaches(InOrder, s, d) && InRun(d, m) && AtRest(d, m) && TicketAdded(s, d, k, id, e, x)
  {
    var b, r := RaiseBy(InOrder, s, m, k);
    id :| HomeOf(id) == k && Unused(s, id);
    assert EngineersAt(s, HomeOf(e));
    assert EngineersAt(b, HomeOf(e)) && Unused(b, id);
    BooksAtOnce(InOrder, b, r, e, id);
    var c := JustBooked(b, r, k, e, id);
    ReachesTrans(InOrder, s, b, c);
    JustBookedIsSound(b, m, r, k, e, id);
    var f := RaiseEnds(c, m, r, x);
    ReachesTrans(InOrder, s, c, f);
    d := GivesBack(InOrder, f, m, r);
    ReachesTrans(InOrder, s, f, d);
    JustBookedAdds(s, b, r, k, e, id, f, d, x);
    StaysInRun(s, d, m);
  }

  lemma RestIsReady(s: System, m: int)
    requires InRun(s, m) && AtRest(s, m) && |s.booked| <= 2
    ensures Lively(s, m) && IdsLeft(s)
  {
    assert L.EngineOk(s.lock, m);
    InRunIsRoomy(s, m);
    RoomLeavesIds(s);
  }

  /** From the first state: branch k books an engineer, and all is done in good order. */
  lemma FirstTicket(k: int) returns (s: System, t: int)
    requires k == 1 || k == 2
    ensures Init(TwoBranches(), 1) && Reaches(InOrder, TwoBranches(), s) && InRun(s, 1) && AtRest(s, 1)
    ensures TicketAdded(TwoBranches(), s, k, t, ENGINEER, OTHER) && Lively(s, 1) && IdsLeft(s) && Available(s, OTHER)
  {
    var start := TwoBranches();
    TwoBranchesStart();
    RestIsReady(start, 1);
    assert IdLeft(start, k);
    s, t := BooksInOrder(start, 1, k, ENGINEER, OTHER);
    assert |s.booked| == 1;
    RestIsReady(s, 1);
  }

  // ---- a close that has not got everywhere --------------------------------------------------------------

  /** Branch 2's ticket is closed at the engineer's branch, which frees him; its COMMIT has not reached branch
      2 when the next raise books him.  In this orderly run he has two open tickets. */
  lemma CloseInFlight() returns (x: System, t: int)
    ensures Init(TwoBranches(), 1) && Reaches(InOrder, TwoBranches(), x) && OpenBeside(x, t)
  {
    var s: System;
    s, t := FirstTicket(2);
    var ev := Close(1, t, ENGINEER, "", true, {2});
    ClosesAtOne(s, t);
    CloseAtEngineerIsExact(s, 1, ev, t);
    var d := Next(s, ev);
    x :| Reaches(InOrder, d, x) && OpenBeside(x, t);
    ReachesOn(InOrder, TwoBranches(), s, ev);
    ReachesTrans(InOrder, TwoBranches(), d, x);
  }

  lemma ClosesAtOne(s: System, t: int)
    requires TicketAdded(TwoBranches(), s, 2, t, ENGINEER, OTHER)
    ensures var ev := Close(1, t, ENGINEER, "", true, {2});
            && Enabled(s, ev) && Orderly(s, ev) && t !in s.freed && t in Next(s, ev).freed
            && Open(Next(s, ev), HomeOf(t), t)
  {
    assert Peers(s, 1, {2}) && HomeOf(ENGINEER) == 1;
  }

  // ---- a ticket that is closed twice ----------------------------------------------------------------------

  /** Ticket t has come and gone, and another one keeps the engineer busy. */
  ghost predicate ClosedAndBookedAgain(s: System, t: int, u: int) {
    && t in s.booked && s.booked[t] == ENGINEER && t in s.freed && !Open(s, HomeOf(t), t)
    && u != t && Live(s, u) && s.booked[u] == ENGINEER
  }

  /** Branch 1 has had ticket t, which has been closed. */
  ghost predicate ComeAndGone(s: System, t: int) {
    && s.booked == map[t := ENGINEER] && s.freed == {t} && s.closing == {t} && HomeOf(t) == 1
    && s.shards.Keys == {1, 2} && Available(s, ENGINEER)
    && s.shards[1].tickets.Keys == {t} && !Open(s, 1, t) && s.shards[2].tickets == map[]
  }

  /** The ticket is closed where it is kept. */
  lemma ClosesAtHome(s: System, t: int)
    requires TicketAdded(TwoBranches(), s, 1, t, ENGINEER, OTHER)
    ensures var ev := Close(1, t, ENGINEER, "", true, {});
            && Enabled(s, ev) && Orderly(s, ev) && ComeAndGone(Next(s, ev), t) && Next(s, ev).lock == s.lock
  {
    assert HomeOf(ENGINEER) == 1 && Peers(s, 1, {});
    assert s.booked == map[t := ENGINEER];
  }

  lemma StaysAtRest(s: System, m: int, ev: Event)
    requires InRun(s, m) && AtRest(s, m) && Enabled(s, ev) && Orderly(s, ev) && ev.Close?
    ensures InRun(Next(s, ev), m) && AtRest(Next(s, ev), m)
  {
    RunStep(s, m, ev);
    LockUntouched(s, ev);
    forall q ensures !Active(Next(s, ev), q) {
      assert !Active(s, q);
    }
  }

  lemma SecondTicket(d: System, s: System, t: int, u: int)
    requires ComeAndGone(d, t)
    requires TicketAdded(d, s, 1, u, ENGINEER, OTHER)
    ensures ClosedAndBookedAgain(s, t, u) && Open(s, HomeOf(u), u) && |s.booked| <= 2
  {
    assert t in d.booked && u !in d.booked;
    assert s.booked == map[t := ENGINEER, u := ENGINEER];
    assert s.booked.Keys == {t, u};
  }

  /** From the first state: a ticket of branch 1 has been raised and closed, all in good order. */
  lemma FirstTicketClosed() returns (s: System, t: int)
    ensures Init(TwoBranches(), 1) && Reaches(InOrder, TwoBranches(), s) && InRun(s, 1) && AtRest(s, 1)
    ensures ComeAndGone(s, t) && Lively(s, 1) && IdsLeft(s)
  {
    var a: System;
    a, t := FirstTicket(1);
    var ev := Close(1, t, ENGINEER, "", true, {});
    ClosesAtHome(a, t);
    StaysAtRest(a, 1, ev);
    ReachesOn(InOrder, TwoBranches(), a, ev);
    s := Next(a, ev);
    RestIsReady(s, 1);
  }

  /** A ticket is raised, closed, and its engineer booked again, all in good order.  When the ticket is then
      closed once more, a double booking can follow. */
  lemma SecondCloseIsUnsafe() returns (s: System, t: int, u: int)
    ensures Init(TwoBranches(), 1) && Reaches(InOrder, TwoBranches(), s) && ClosedAndBookedAgain(s, t, u)
    ensures var again := Close(1, t, ENGINEER, "", true, {}); Enabled(s, again) && !SafeFrom(Next(s, again))
  {
    var b: System;
    b, t := FirstTicketClosed();
    assert IdLeft(b, 1);
    s, u := BooksInOrder(b, 1, 1, ENGINEER, OTHER);
    ReachesTrans(InOrder, TwoBranches(), b, s);
    SecondTicket(b, s, t, u);
    SecondCloseBreaks(s, t, u);
  }

  lemma SecondCloseBreaks(s: System, t: int, u: int)
    requires InRun(s, 1) && AtRest(s, 1) && ClosedAndBookedAgain(s, t, u) && Open(s, HomeOf(u), u)
    requires |s.booked| <= 2 && 1 in s.shards
    ensures var again := Close(1, t, ENGINEER, "", true, {}); Enabled(s, again) && !SafeFrom(Next(s, again))
  {
    RestIsReady(s, 1);
    NobodyInWindow(s, u);
    assert Peers(s, 1, {}) && HomeOf(ENGINEER) == 1;
    assert Has(s, ENGINEER, u) && !Has(s, ENGINEER, t) && !Stuck(s, u, ENGINEER);
    CloseIsExact(s, 1, 1, t, ENGINEER, "", true, {});
  }

  lemma NobodyInWindow(s: System, u: int)
    requires NobodyActive(s)
    ensures !InWindow(s, u)
  {
    forall r ensures !Owns(s, r, u) {
      assert !Active(s, r);
    }
  }

  /** A ticket has been closed and its engineer is free.  The other branch closes it again: that is unsafe,
      although nobody has the engineer, for the COMMIT can arrive after he has been booked. */
  lemma LateSecondCloseIsUnsafe() returns (s: System, t: int)
    ensures Init(TwoBranches(), 1) && Reaches(InOrder, TwoBranches(), s) && ComeAndGone(s, t)
    ensures var again := Close(2, t, ENGINEER, "", false, {1}); Enabled(s, again) && !SafeFrom(Next(s, again))
  {
    s, t := FirstTicketClosed();
    assert Peers(s, 2, {1}) && HomeOf(ENGINEER) == 1;
    forall u ensures !Has(s, ENGINEER, u) {
    }
    assert !Blocked(s, ENGINEER);
    CloseIsExact(s, 1, 2, t, ENGINEER, "", false, {1});
  }

  /** Branch 2 has closed ticket t, and its COMMIT has not reached branch 1, where ticket and engineer are. */
  ghost predicate CloseUnderWay(s: System, t: int) {
    && InRun(s, 1) && Lively(s, 1) && s.shards.Keys == {1, 2} && HomeOf(t) == 1 && |s.booked| <= 2
    && Has(s, ENGINEER, t) && Open(s, 1, t) && CloseOf(t, ENGINEER) in s.commits
  }

  /** Branch 1 keeps the only ticket so far, and it is open. */
  ghost predicate FirstOpen(s: System, t: int) {
    && s.shards.Keys == {1, 2} && HomeOf(t) == 1 && Open(s, 1, t)
    && s.booked == map[t := ENGINEER] && s.freed == {} && s.closing == {}
  }

  lemma FirstIsOpen(s: System, t: int)
    requires TicketAdded(TwoBranches(), s, 1, t, ENGINEER, OTHER)
    ensures FirstOpen(s, t)
  {
    assert s.booked == map[t := ENGINEER];
  }

  lemma SendsFromTwo(s: System, t: int)
    requires FirstOpen(s, t)
    ensures var ev := Close(2, t, ENGINEER, "", false, {1});
            && Enabled(s, ev) && Orderly(s, ev)
            && var d := Next(s, ev);
               && d.shards == s.shards && d.booked == s.booked && d.freed == s.freed
               && CloseOf(t, ENGINEER) in d.commits
  {
    assert Peers(s, 2, {1}) && HomeOf(ENGINEER) == 1;
    assert CloseOf(t, ENGINEER) in Messages(CloseTicket(t, ENGINEER), {1});
  }

  lemma ClosesFromTwo(s: System, t: int)
    requires InRun(s, 1) && AtRest(s, 1) && FirstOpen(s, t)
    ensures var ev := Close(2, t, ENGINEER, "", false, {1});
            Enabled(s, ev) && Orderly(s, ev) && CloseUnderWay(Next(s, ev), t)
  {
    var ev := Close(2, t, ENGINEER, "", false, {1});
    SendsFromTwo(s, t);
    StaysAtRest(s, 1, ev);
    RestIsReady(Next(s, ev), 1);
  }

  /** A retried close: the first attempt has sent its COMMIT and failed at its own node.  The ticket is still
      open under its own engineer, and yet to close it once more is unsafe, for the same branch and for the
      engineer's. */
  lemma RetriedCloseIsUnsafe() returns (s: System, t: int)
    ensures Init(TwoBranches(), 1) && Reaches(InOrder, TwoBranches(), s) && CloseUnderWay(s, t)
    ensures var again := Close(2, t, ENGINEER, "", true, {1}); Enabled(s, again) && !SafeFrom(Next(s, again))
    ensures var there := Close(1, t, ENGINEER, "", true, {}); Enabled(s, there) && !SafeFrom(Next(s, there))
  {
    var a: System;
    a, t := FirstTicket(1);
    var ev := Close(2, t, ENGINEER, "", false, {1});
    FirstIsOpen(a, t);
    ClosesFromTwo(a, t);
    ReachesOn(InOrder, TwoBranches(), a, ev);
    s := Next(a, ev);
    assert Peers(s, 2, {1}) && Peers(s, 1, {}) && HomeOf(ENGINEER) == 1;
    CloseIsExact(s, 1, 2, t, ENGINEER, "", true, {1});
    CloseIsExact(s, 1, 1, t, ENGINEER, "", true, {});
  }

  // ---- a ticket that is moved ---------------------------------------------------------------------------

  lemma OneRow(t: Ticket, e: Ingeniero)
    requires R.ToMove(t, 2) && R.CanTake(e, 2)
    ensures R.TicketsOf([t], 2) == [t] && R.TakersOf([e], 2) == [e]
  {
    assert [t][..0] == [] && [e][..0] == [];
  }

  lemma OtherTakesOver(s: System, t: int)
    requires TicketAdded(TwoBranches(), s, 2, t, ENGINEER, OTHER) && Available(s, OTHER) && EngineersAt(s, 1)
    ensures var row, taker := OpenTicket(t, ENGINEER, 2), s.shards[1].ingenieros[OTHER];
            && Proposed(s, R.Reassigned(row, taker), 2, [row], [taker], 0)
            && R.Reassigned(row, taker).ingeniero == OTHER && R.Reassigned(row, taker).sucursal == 1
  {
    var row, taker := OpenTicket(t, ENGINEER, 2), s.shards[1].ingenieros[OTHER];
    assert HomeOf(OTHER) == 1;
    OneRow(row, taker);
  }

  /** Branch 2 is taken for dead although its shard still answers: its ticket goes to the other engineer of
      branch 1, who can be booked again at once. */
  lemma ReassignmentIsUnsafe() returns (s: System, p: Ticket, tickets: seq<Ticket>, engineers: seq<Ingeniero>)
    ensures Init(TwoBranches(), 1) && Reaches(InOrder, TwoBranches(), s) && Proposed(s, p, 2, tickets, engineers, 0)
    ensures Enabled(s, Reassign(1, p, true, {})) && !SafeFrom(Next(s, Reassign(1, p, true, {})))
  {
    var t: int;
    s, t := FirstTicket(2);
    assert EngineersAt(s, 1);
    OtherTakesOver(s, t);
    var row, taker := OpenTicket(t, ENGINEER, 2), s.shards[1].ingenieros[OTHER];
    p, tickets, engineers := R.Reassigned(row, taker), [row], [taker];
    assert s.booked == map[t := ENGINEER];
    forall u ensures !Stuck(s, u, OTHER) {
    }
    EveryReassignmentIsUnsafe(s, 1, 1, true, {}, p, 2, tickets, engineers, 0);
  }

  // ---- two raises from two branches -------------------------------------------------------------------------

  /** The branch reads its own shard first, which has no engineer. */
  lemma ReadsNothing(w: Manner, s: System, r: ReqId) returns (d: System)
    requires Begins(s, r) && 2 in s.shards && s.shards[2].ingenieros == map[] && Sound(s, 1)
    ensures Reaches(w, s, d) && d == At(s, r, Reading([])) && Begins(d, r) && Sound(d, 1)
  {
    var rows: seq<Ingeniero> := [];
    var ev := Read(r, 2, rows);
    assert rows + rows == rows;
    OneStep(w, s, ev);
    d := Next(s, ev);
    StillSound(s, d, 1, r);
  }

  /** Branch 2 has inserted ticket t for the engineer; at branch 1 nothing of it is known. */
  ghost predicate BookedByTwo(s: System, t: int) {
    && Stale(s, 2, t, ENGINEER) && s.booked == map[t := ENGINEER] && s.freed == {} && s.closing == {}
    && s.shards.Keys == {1, 2} && s.shards[1] == TwoBranches().shards[1]
    && s.shards[2].tickets.Keys == {t} && s.shards[2].ingenieros == map[]
  }

  /** The raise of branch 2 has the lock, and nobody waits for it. */
  ghost predicate TwoHolds(s: System, r: ReqId) {
    Sound(s, 1) && Active(s, r) && s.lock.attempts[r].owner == 2 && s.lock.engines[1].queue == []
  }

  lemma CommittedByTwo(s: System, op: Op, t: int)
    requires BookedByTwo(s, t) && (op.UpdateTicketFolio? || op.UpdateDisponible?)
    ensures var d := Committed(s, 2, op, "", true, {1}); BookedByTwo(d, t) && d.lock == s.lock && d.raises == s.raises
  {
  }

  lemma TwoGoesOn(s: System, r: ReqId, op: Op, at: Raise, t: int)
    requires TwoHolds(s, r) && BookedByTwo(s, t) && (op.UpdateTicketFolio? || op.UpdateDisponible?)
    ensures var d := At(Committed(s, 2, op, "", true, {1}), r, at); TwoHolds(d, r) && BookedByTwo(d, t)
  {
    CommittedByTwo(s, op, t);
    StillSound(s, At(Committed(s, 2, op, "", true, {1}), r, at), 1, r);
  }

  /** Branch 2 takes the lock and reads its own shard. */
  lemma TwoBegins(w: Manner) returns (s: System, r: ReqId)
    ensures Reaches(w, TwoBranches(), s) && Sound(s, 1) && Begins(s, r)
    ensures s.lock.attempts[r].owner == 2 && s.lock.engines[1].queue == []
    ensures s == TwoBranches().(lock := s.lock, raises := s.raises)
  {
    TwoBranchesStart();
    var a: System;
    a, r := RaiseBy(w, TwoBranches(), 1, 2);
    s := ReadsNothing(w, a, r);
    ReachesTrans(w, TwoBranches(), a, s);
  }

  /** Then it finds the engineer and inserts. */
  lemma TwoInserts(w: Manner) returns (s: System, r: ReqId, t: int)
    ensures Reaches(w, TwoBranches(), s) && TwoHolds(s, r) && BookedByTwo(s, t)
    ensures RaiseOf(s, r) == Inserted(t, ENGINEER)
  {
    var b: System;
    b, r := TwoBegins(w);
    t := NewId(2, 0);
    IdsDecode(2, 0);
    assert HomeOf(ENGINEER) == 1 && EngineersAt(b, 1) && Unused(b, t);
    BooksAtOnce(w, b, r, ENGINEER, t);
    s := JustBooked(b, r, 2, ENGINEER, t);
    ReachesTrans(w, TwoBranches(), b, s);
    JustBookedIsSound(b, 1, r, 2, ENGINEER, t);
  }

  lemma TwoNotes(s: System, r: ReqId, t: int)
    requires TwoHolds(s, r) && BookedByTwo(s, t) && RaiseOf(s, r) == Inserted(t, ENGINEER)
    ensures var ev := Note(r, "", true, {1});
            && Enabled(s, ev)
            && TwoHolds(Next(s, ev), r) && BookedByTwo(Next(s, ev), t) && RaiseOf(Next(s, ev), r) == Noted(t, ENGINEER)
  {
    assert Peers(s, 2, {1});
    TwoGoesOn(s, r, UpdateTicketFolio(t, ""), Noted(t, ENGINEER), t);
  }

  lemma TwoMarks(s: System, r: ReqId, t: int)
    requires TwoHolds(s, r) && BookedByTwo(s, t) && RaiseOf(s, r) == Noted(t, ENGINEER)
    ensures var ev := Mark(r, true, {1});
            && Enabled(s, ev)
            && TwoHolds(Next(s, ev), r) && BookedByTwo(Next(s, ev), t) && RaiseOf(Next(s, ev), r) == Done(t, ENGINEER)
            && MarkOf(ENGINEER) in Next(s, ev).commits
  {
    assert Peers(s, 2, {1}) && HomeOf(ENGINEER) == 1;
    assert MarkOf(ENGINEER) in Messages(UpdateDisponible(ENGINEER, 0), {1});
    TwoGoesOn(s, r, UpdateDisponible(ENGINEER, 0), Done(t, ENGINEER), t);
  }

  /** It commits the folio and the mark, whose COMMITs are on their way to branch 1 now. */
  lemma TwoCommits(w: Manner, s: System, r: ReqId, t: int) returns (d: System)
    requires TwoHolds(s, r) && BookedByTwo(s, t) && RaiseOf(s, r) == Inserted(t, ENGINEER)
    ensures Reaches(w, s, d) && TwoHolds(d, r) && BookedByTwo(d, t) && RaiseOf(d, r) == Done(t, ENGINEER)
    ensures MarkOf(ENGINEER) in d.commits
  {
    TwoNotes(s, r, t);
    OneStep(w, s, Note(r, "", true, {1}));
    var a := Next(s, Note(r, "", true, {1}));
    TwoMarks(a, r, t);
    ReachesOn(w, s, a, Mark(r, true, {1}));
    d := Next(a, Mark(r, true, {1}));
  }

  lemma TwoReleases(s: System, r: ReqId, t: int) returns (d: System)
    requires TwoHolds(s, r) && BookedByTwo(s, t) && RaiseOf(s, r) == Done(t, ENGINEER)
    ensures Reaches(Plainly, s, d) && Sound(d, 1) && AtRest(d, 1) && BookedByTwo(d, t)
  {
    HolderMayLetGo(s, 1, r);
    d := GivesBack(Plainly, s, 1, r);
  }

  /** Branch 1 raises a ticket of its own. */
  lemma OneBooksToo(s: System, t: int) returns (x: System, u: int)
    requires Sound(s, 1) && AtRest(s, 1) && BookedByTwo(s, t)
    ensures Reaches(Plainly, s, x) && Twice(x, ENGINEER, 2, t, 1, u)
  {
    var b, r := RaiseBy(Plainly, s, 1, 1);
    assert |b.booked| == 1;
    RoomLeavesIds(b);
    assert IdLeft(b, 1);
    x, u := BooksBeside(Plainly, b, r, 2, t, ENGINEER);
    ReachesTrans(Plainly, s, b, x);
  }

  /** Branch 2 books the engineer of branch 1, commits everything and releases the lock.  Before the COMMIT
      that marks him has reached branch 1, branch 1 raises a ticket of its own and finds him available.
      Nothing failed, and nobody closed, moved or elected anything. */
  lemma DoubleBookingHappens() returns (x: System, t: int, u: int)
    ensures Init(TwoBranches(), 1) && Reaches(Plainly, TwoBranches(), x)
    ensures Twice(x, ENGINEER, 2, t, 1, u) && !NoDoubleBooking(x)
  {
    TwoBranchesStart();
    var s: System, r: ReqId;
    s, r, t := TwoInserts(Plainly);
    var c := TwoCommits(Plainly, s, r, t);
    ReachesTrans(Plainly, TwoBranches(), s, c);
    var a := TwoReleases(c, r, t);
    ReachesTrans(Plainly, TwoBranches(), c, a);
    x, u := OneBooksToo(a, t);
    ReachesTrans(Plainly, TwoBranches(), a, x);
    TwiceIsDouble(x, ENGINEER, 2, t, 1, u);
  }

  // ---- a mark that comes after the close --------------------------------------------------------------------

  /** Branch 1 closes the ticket while the mark of its engineer is on its way there. */
  lemma ClosesBeforeMark(s: System, t: int)
    requires InRun(s, 1) && BookedByTwo(s, t) && MarkOf(ENGINEER) in s.commits
    ensures var ev := Close(1, t, ENGINEER, "", true, {});
            && Enabled(s, ev) && Orderly(s, ev)
            && var d := Next(s, ev);
               && t in d.freed && Available(d, ENGINEER) && NoTicket(d, ENGINEER) && MarkOf(ENGINEER) in d.commits
               && HomeOf(ENGINEER) in d.shards && ENGINEER in d.shards[HomeOf(ENGINEER)].ingenieros
               && d.raises == s.raises && d.lock == s.lock && d.shards.Keys == s.shards.Keys
  {
    assert Peers(s, 1, {}) && HomeOf(ENGINEER) == 1;
  }

  lemma OnlyTheWorker(s: System, m: int, r: ReqId, e: int)
    requires Inv(s, m) && Active(s, r) && RaiseOf(s, r).Done?
    ensures forall q {:trigger AboutToBook(s, q, e)} :: !AboutToBook(s, q, e)
  {
    forall q ensures !AboutToBook(s, q, e) {
      if Active(s, q) {
        OneActive(s, m, q, r);
      }
    }
  }

  /** Branch 2 raises a ticket; it is closed at its engineer's branch, and only then the mark arrives there.
      All is in good order, he has no ticket, and he is never available again. */
  lemma LateMarkIsForGood() returns (s: System, t: int)
    ensures Init(TwoBranches(), 1) && Reaches(InOrder, TwoBranches(), s)
    ensures t in s.freed && Available(s, ENGINEER) && NoTicket(s, ENGINEER) && Enabled(s, Arrive(MarkOf(ENGINEER), ""))
    ensures forall d {:trigger Reaches(InOrder, Next(s, Arrive(MarkOf(ENGINEER), "")), d)} ::
              Reaches(InOrder, Next(s, Arrive(MarkOf(ENGINEER), "")), d) ==> Blocked(d, ENGINEER)
  {
    var start := TwoBranches();
    TwoBranchesStart();
    var a: System, r: ReqId;
    a, r, t := TwoInserts(InOrder);
    var b := TwoCommits(InOrder, a, r, t);
    ReachesTrans(InOrder, start, a, b);
    RunsAreInRun(start, 1, b);
    ClosesBeforeMark(b, t);
    var ev := Close(1, t, ENGINEER, "", true, {});
    ReachesOn(InOrder, start, b, ev);
    s := Next(b, ev);
    StepKeeps(b, 1, ev);
    OnlyTheWorker(s, 1, r, ENGINEER);
    LateMarkBlocks(s, 1, ENGINEER);
  }
}
