/** When a request to close a ticket is safe, exactly: at any branch, by any node, for the first time or again
    (CloseTicket in internal/service/ticket_service.go, which the retries of Propose in
    internal/consensus/consensus.go repeat).  A close frees its engineer wherever and whenever it is applied,
    whether or not the ticket is his, is open, or has been closed before. */
module BookingRequests {
  import opened Common
  import opened Database
  import opened IdAllocation
  import opened LockEngine
  import opened Booking
  import opened BookingRuns
  import opened BookingLimits
  import opened BookingCloses
  import opened BookingMarks
  import L = LockCluster
  import P = LockPaths
  import Paths

  /** The COMMIT of a close, on its way to the engineer's branch. */
  function CloseOf(t: int, e: int): CommitMsg {
    CommitMsg(HomeOf(e), CloseTicket(t, e))
  }

  /** Ticket t is a live ticket of engineer e. */
  predicate Has(s: System, e: int, t: int) {
    Live(s, t) && s.booked[t] == e
  }

  /** A ticket of engineer e that is closed where it is kept, while nothing is left under way to free him. */
  predicate Stuck(s: System, t: int, e: int) {
    Has(s, e, t) && t in s.closing && !Open(s, HomeOf(t), t) && CloseOf(t, e) !in s.commits
  }

  /** When a request to close ticket t under engineer e is harmless.  If it gets to his branch, then
      - for a live ticket of his: no other close of it is on its way there;
      - for another, applied there at once: he has no ticket but one whose raise still has the lock, or one
        that will never free him;
      - for another, sent there: he has such a ticket, or has none and is out of service for good. */
  ghost predicate MayClose(s: System, node: int, t: int, e: int, applied: bool, targets: set<int>) {
    GetsTo(node, applied, targets, HomeOf(e)) ==>
      if Has(s, e, t) then CloseOf(t, e) !in s.commits
      else if HomeOf(e) in targets then (exists u {:trigger Stuck(s, u, e)} :: Stuck(s, u, e)) || Blocked(s, e)
      else forall u {:trigger Has(s, e, u)} :: Has(s, e, u) ==> InWindow(s, u) || Stuck(s, u, e)
  }

  lemma OneTicket(s: System, e: int, t: int, u: int)
    requires OneLivePerEngineer(s) && Has(s, e, t) && Has(s, e, u)
    ensures t == u
  {
  }

  // ---- a ticket that will never free its engineer might as well be done with ----------------------------

  function Erase(s: System, u: int): System {
    s.(freed := s.freed + {u})
  }

  lemma EraseApplied(s: System, n: int, op: Op, now: string, u: int)
    requires n in s.shards
    ensures Applied(Erase(s, u), n, op, now) == Erase(Applied(s, n, op, now), u)
  {
  }

  lemma EraseCommitted(s: System, n: int, op: Op, now: string, applied: bool, targets: set<int>, u: int)
    requires n in s.shards
    ensures Committed(Erase(s, u), n, op, now, applied, targets)
            == Erase(Committed(s, n, op, now, applied, targets), u)
  {
    if applied {
      EraseApplied(s.(commits := s.commits + Messages(op, targets)), n, op, now, u);
    }
  }

  lemma EraseStep(s: System, ev: Event, u: int)
    requires Enabled(s, ev) && Orderly(s, ev)
    ensures Enabled(Erase(s, u), ev) && Orderly(Erase(s, u), ev) && Next(Erase(s, u), ev) == Erase(Next(s, ev), u)
  {
    match ev
    case Insert(r, id, us, dv, now, applied, targets) =>
      var n := s.lock.attempts[r].owner;
      var row := Ticket(id, us, RaiseOf(s, r).eng, n, dv, ABIERTO, "", now, "");
      EraseCommitted(s, n, InsertTicket(row), now, applied, targets, u);
    case Note(r, folio, applied, targets) =>
      var n := s.lock.attempts[r].owner;
      EraseCommitted(s, n, UpdateTicketFolio(RaiseOf(s, r).ticket, folio), "", applied, targets, u);
    case Mark(r, applied, targets) =>
      var n := s.lock.attempts[r].owner;
      EraseCommitted(s, n, UpdateDisponible(RaiseOf(s, r).eng, 0), "", applied, targets, u);
    case Arrive(x, now) => EraseApplied(s.(commits := s.commits - multiset{x}), x.to, x.op, now, u);
    case Close(node, t, e, now, applied, targets) =>
      var b := if (applied || targets != {}) && BookedFor(s, t, e) then s.(closing := s.closing + {t}) else s;
      EraseCommitted(b, node, CloseTicket(t, e), now, applied, targets, u);
    case AddIngeniero(node, row, applied, targets) =>
      EraseCommitted(s, node, InsertIngeniero(row), "", applied, targets, u);
    case _ =>
  }

  /** Every orderly way on has its counterpart with the ticket erased, where it is never open again. */
  lemma {:induction false} EraseAlong(s: System, m: int, evs: seq<Event>, d: System, u: int)
    requires Inv(Erase(s, u), m) && ClosedFor(s, u) && Leads(InOrder, s, evs, d)
    ensures NoDoubleBooking(d)
    decreases |evs|
  {
    if evs == [] {
      InvPreventsDoubleBooking(Erase(s, u), m);
      forall n1, t1, n2, t2 |
        && Open(s, n1, t1) && Open(s, n2, t2)
        && s.shards[n1].tickets[t1].ingeniero == s.shards[n2].tickets[t2].ingeniero
        && t1 !in s.freed && t2 !in s.freed
        ensures n1 == n2 && t1 == t2
      {
        assert TicketsAt(Erase(s, u), n1) && TicketsAt(Erase(s, u), n2);
        assert Open(Erase(s, u), n1, t1) && Open(Erase(s, u), n2, t2);
      }
    } else {
      var c :| StepOf(InOrder)(s, evs[0], c) && Paths.Leads(StepOf(InOrder), c, evs[1..], d);
      EraseStep(s, evs[0], u);
      StepKeeps(Erase(s, u), m, evs[0]);
      StepStaysClosed(Erase(s, u), m, evs[0], u);
      EraseAlong(c, m, evs[1..], d, u);
    }
  }

  // ---- the engineer's branch applies a close of what is not a ticket of his ------------------------------

  function Again(s: System, t: int, e: int, now: string): System
    requires HomeOf(e) in s.shards
  {
    Applied(s, HomeOf(e), CloseTicket(t, e), now)
  }

  /** Only engineer e's availability and the state of ticket t may have changed. */
  ghost predicate FreedAgain(s: System, d: System, t: int, e: int) {
    && d == s.(shards := d.shards) && d.shards.Keys == s.shards.Keys
    && (forall n :: n in s.shards ==> d.shards[n].ingenieros.Keys == s.shards[n].ingenieros.Keys)
    && (forall n, x :: n in s.shards && x in s.shards[n].ingenieros && x != e ==>
          d.shards[n].ingenieros[x] == s.shards[n].ingenieros[x])
    && (HomeOf(e) in s.shards && e in s.shards[HomeOf(e)].ingenieros ==> Available(d, e))
    && (forall n :: n in s.shards ==> d.shards[n].tickets.Keys == s.shards[n].tickets.Keys)
    && (forall n, u :: n in s.shards && u in s.shards[n].tickets && u != t ==>
          d.shards[n].tickets[u] == s.shards[n].tickets[u])
    && (forall n, u :: Open(d, n, u) ==> Open(s, n, u))
    && ShardsOk(d)
  }

  lemma AgainFrees(s: System, t: int, e: int, now: string)
    requires ShardsOk(s) && HomeOf(e) in s.shards && !Has(s, e, t)
    ensures FreedAgain(s, Again(s, t, e, now), t, e)
  {
    var d := Again(s, t, e, now);
    assert BookedFor(s, t, e) ==> s.freed + {t} == s.freed;
    forall n | n in d.shards ensures EngineersAt(d, n) && TicketsAt(d, n) {
      assert EngineersAt(s, n) && TicketsAt(s, n);
    }
  }

  lemma FreedAgainRaise(s: System, d: System, t: int, e: int, r: ReqId)
    requires FreedAgain(s, d, t, e) && RaiseOk(s, r)
    ensures RaiseOk(d, r)
  {
    match RaiseOf(s, r)
    case Reading(seen) =>
      forall i | 0 <= i < |seen| && seen[i].disponible == 1 ensures Free(d, seen[i].id) {
        assert Free(s, seen[i].id);
      }
    case Chosen(x) => assert Free(s, x);
    case _ =>
  }

  lemma FreedAgainLive(s: System, d: System, t: int, e: int, u: int)
    requires FreedAgain(s, d, t, e) && u in s.booked && LiveOk(s, u)
    requires Has(s, e, u) ==> InWindow(s, u)
    ensures LiveOk(d, u)
  {
    if Live(s, u) && Available(d, s.booked[u]) {
      assert InWindow(s, u);
      var r :| Owns(s, r, u);
      assert Owns(d, r, u);
    }
  }

  lemma FreedAgainKeeps(s: System, d: System, m: int, t: int, e: int)
    requires Inv(s, m) && FreedAgain(s, d, t, e)
    requires forall u {:trigger Has(s, e, u)} :: Has(s, e, u) ==> InWindow(s, u)
    ensures Inv(d, m)
  {
    forall u | u in d.booked ensures LiveOk(d, u) {
      assert LiveOk(s, u);
      assert Has(s, e, u) || !Has(s, e, u);
      FreedAgainLive(s, d, t, e, u);
    }
    forall q | Active(d, q) ensures RaiseOk(d, q) {
      assert Active(s, q) && RaiseOk(s, q);
      FreedAgainRaise(s, d, t, e, q);
    }
    forall q | q in d.raises ensures Started(d, q) {
      assert Started(s, q);
    }
    forall x | x in d.commits ensures CommitOk(d, x) {
      assert CommitOk(s, x);
    }
    forall u, v | Live(d, u) && Live(d, v) && d.booked[u] == d.booked[v] ensures u == v {
      assert Live(s, u) && Live(s, v) && s.booked[u] == s.booked[v];
    }
  }

  /** With his stuck ticket erased the engineer has none, and may be free. */
  lemma ErasedLive(s: System, d: System, t: int, e: int, u: int, v: int)
    requires OneLivePerEngineer(s) && FreedAgain(s, d, t, e) && Stuck(s, u, e) && v in s.booked && LiveOk(s, v)
    ensures LiveOk(Erase(d, u), v)
  {
    var x := Erase(d, u);
    if Live(x, v) && Available(x, s.booked[v]) {
      assert Live(s, v) && Live(s, u);
      assert s.booked[v] != e;
      assert Available(s, s.booked[v]);
      var r :| Owns(s, r, v);
      assert Owns(x, r, v);
    }
  }

  lemma ErasedRaise(s: System, d: System, t: int, e: int, u: int, r: ReqId)
    requires FreedAgain(s, d, t, e) && RaiseOk(s, r)
    ensures RaiseOk(Erase(d, u), r)
  {
    match RaiseOf(s, r)
    case Reading(seen) =>
      forall i | 0 <= i < |seen| && seen[i].disponible == 1 ensures Free(Erase(d, u), seen[i].id) {
        assert Free(s, seen[i].id);
      }
    case Chosen(x) => assert Free(s, x);
    case _ =>
  }

  lemma ErasedKeeps(s: System, d: System, m: int, t: int, e: int, u: int)
    requires Inv(s, m) && FreedAgain(s, d, t, e) && Stuck(s, u, e)
    ensures Inv(Erase(d, u), m)
  {
    var x := Erase(d, u);
    forall v | v in x.booked ensures LiveOk(x, v) {
      assert LiveOk(s, v);
      ErasedLive(s, d, t, e, u, v);
    }
    forall q | Active(x, q) ensures RaiseOk(x, q) {
      assert Active(s, q) && RaiseOk(s, q);
      ErasedRaise(s, d, t, e, u, q);
    }
    forall q | q in x.raises ensures Started(x, q) {
      assert Started(s, q);
    }
    forall n | n in x.shards ensures EngineersAt(x, n) && TicketsAt(x, n) {
      assert EngineersAt(d, n) && TicketsAt(d, n);
    }
    forall y | y in x.commits ensures CommitOk(x, y) {
      assert CommitOk(s, y);
    }
    forall v, w | Live(x, v) && Live(x, w) && x.booked[v] == x.booked[w] ensures v == w {
      assert Live(s, v) && Live(s, w) && s.booked[v] == s.booked[w];
    }
  }

  lemma AgainIsSafe(s: System, m: int, t: int, e: int, now: string)
    requires Inv(s, m) && HomeOf(e) in s.shards && !Has(s, e, t)
    requires forall u {:trigger Has(s, e, u)} :: Has(s, e, u) ==> InWindow(s, u) || Stuck(s, u, e)
    ensures SafeFrom(Again(s, t, e, now))
  {
    var d := Again(s, t, e, now);
    AgainFrees(s, t, e, now);
    if u :| Stuck(s, u, e) {
      ErasedKeeps(s, d, m, t, e, u);
      forall x | Reaches(InOrder, d, x) ensures NoDoubleBooking(x) {
        var evs :| Paths.Leads(StepOf(InOrder), d, evs, x);
        EraseAlong(d, m, evs, x, u);
      }
    } else {
      FreedAgainKeeps(s, d, m, t, e);
      InvIsSafe(d, m);
    }
  }

  // ---- such a close on its way to the engineer's branch --------------------------------------------------

  /** The state with one more COMMIT on its way. */
  function With(s: System, x: CommitMsg): System {
    s.(commits := s.commits + multiset{x})
  }

  lemma WithApplied(s: System, x: CommitMsg, n: int, op: Op, now: string)
    requires n in s.shards
    ensures Applied(With(s, x), n, op, now) == With(Applied(s, n, op, now), x)
  {
  }

  lemma WithCommitted(s: System, x: CommitMsg, n: int, op: Op, now: string, applied: bool, targets: set<int>)
    requires n in s.shards
    ensures Committed(With(s, x), n, op, now, applied, targets) == With(Committed(s, n, op, now, applied, targets), x)
  {
    var more := Messages(op, targets);
    assert s.commits + multiset{x} + more == s.commits + more + multiset{x};
    if applied {
      WithApplied(s.(commits := s.commits + more), x, n, op, now);
    }
  }

  lemma WithArrive(s: System, x: CommitMsg, y: CommitMsg, now: string)
    requires Enabled(With(s, x), Arrive(y, now)) && y != x
    ensures Enabled(s, Arrive(y, now)) && Next(With(s, x), Arrive(y, now)) == With(Next(s, Arrive(y, now)), x)
  {
    assert s.commits + multiset{x} - multiset{y} == s.commits - multiset{y} + multiset{x};
    WithApplied(s.(commits := s.commits - multiset{y}), x, y.to, y.op, now);
  }

  lemma WithInsert(s: System, x: CommitMsg, ev: Event)
    requires ev.Insert? && Enabled(With(s, x), ev)
    ensures Enabled(s, ev) && Next(With(s, x), ev) == With(Next(s, ev), x)
  {
    var n := s.lock.attempts[ev.r].owner;
    var row := Ticket(ev.id, ev.usuario, RaiseOf(s, ev.r).eng, n, ev.dispositivo, ABIERTO, "", ev.now, "");
    WithCommitted(s, x, n, InsertTicket(row), ev.now, ev.applied, ev.targets);
  }

  lemma WithClose(s: System, x: CommitMsg, ev: Event)
    requires ev.Close? && Enabled(With(s, x), ev)
    ensures Enabled(s, ev) && Next(With(s, x), ev) == With(Next(s, ev), x)
  {
    match ev
    case Close(node, t, e, now, applied, targets) =>
      var b := if (applied || targets != {}) && BookedFor(s, t, e) then s.(closing := s.closing + {t}) else s;
      WithCommitted(b, x, node, CloseTicket(t, e), now, applied, targets);
  }

  /** A COMMIT that has not arrived changes nothing of any other step. */
  lemma WithStep(s: System, x: CommitMsg, ev: Event)
    requires Enabled(With(s, x), ev) && Orderly(With(s, x), ev) && !(ev.Arrive? && ev.m == x)
    ensures Enabled(s, ev) && Orderly(s, ev) && Next(With(s, x), ev) == With(Next(s, ev), x)
  {
    match ev
    case Insert(_, _, _, _, _, _, _) => WithInsert(s, x, ev);
    case Note(r, folio, applied, targets) =>
      var n := s.lock.attempts[r].owner;
      WithCommitted(s, x, n, UpdateTicketFolio(RaiseOf(s, r).ticket, folio), "", applied, targets);
    case Mark(r, applied, targets) =>
      var n := s.lock.attempts[r].owner;
      WithCommitted(s, x, n, UpdateDisponible(RaiseOf(s, r).eng, 0), "", applied, targets);
    case Arrive(y, now) => WithArrive(s, x, y, now);
    case Close(_, _, _, _, _, _) => WithClose(s, x, ev);
    case AddIngeniero(node, row, applied, targets) =>
      WithCommitted(s, x, node, InsertIngeniero(row), "", applied, targets);
    case _ =>
  }

  lemma WithArrives(s: System, t: int, e: int, now: string)
    requires HomeOf(e) in s.shards
    ensures var d := With(s, CloseOf(t, e));
            Enabled(d, Arrive(CloseOf(t, e), now)) && Next(d, Arrive(CloseOf(t, e), now)) == Again(s, t, e, now)
  {
    var x := CloseOf(t, e);
    assert s.commits + multiset{x} - multiset{x} == s.commits;
  }

  lemma StuckStep(s: System, m: int, ev: Event, u: int, e: int)
    requires Inv(s, m) && Enabled(s, ev) && Orderly(s, ev) && Stuck(s, u, e)
    ensures Stuck(Next(s, ev), u, e)
  {
    StepStaysClosed(s, m, ev, u);
    StepKeeps(s, m, ev);
    StuckIsNotFreed(s, m, ev, u, e);
    NoNewClose(s, m, ev, u, e);
  }

  lemma ArrivalSparesStuck(s: System, x: CommitMsg, now: string, u: int, e: int)
    requires CommitsOk(s) && Enabled(s, Arrive(x, now)) && Stuck(s, u, e)
    ensures u !in Next(s, Arrive(x, now)).freed
  {
    assert CommitOk(s, x);
  }

  lemma StuckIsNotFreed(s: System, m: int, ev: Event, u: int, e: int)
    requires Inv(s, m) && Enabled(s, ev) && Orderly(s, ev) && Stuck(s, u, e)
    ensures u !in Next(s, ev).freed
  {
    match ev
    case Arrive(x, now) => ArrivalSparesStuck(s, x, now, u, e);
    case _ =>
  }

  lemma NoNewClose(s: System, m: int, ev: Event, u: int, e: int)
    requires Inv(s, m) && Enabled(s, ev) && Orderly(s, ev) && u in s.closing && CloseOf(u, e) !in s.commits
    ensures CloseOf(u, e) !in Next(s, ev).commits
  {
  }

  /** The engineer cannot be booked before the COMMIT arrives. */
  ghost predicate Unbookable(s: System, m: int, e: int) {
    Inv(s, m) && HomeOf(e) in s.shards && ((exists u {:trigger Stuck(s, u, e)} :: Stuck(s, u, e)) || Blocked(s, e))
  }

  lemma UnbookableStep(s: System, m: int, ev: Event, e: int)
    requires Unbookable(s, m, e) && Enabled(s, ev) && Orderly(s, ev)
    ensures Unbookable(Next(s, ev), m, e)
  {
    StepKeeps(s, m, ev);
    if u :| Stuck(s, u, e) {
      StuckStep(s, m, ev, u, e);
    } else {
      StepBlocked(s, m, ev, e);
    }
  }

  lemma {:induction false} StrayAlong(s: System, m: int, t: int, e: int, evs: seq<Event>, d: System)
    requires Unbookable(s, m, e) && !Has(s, e, t) && Leads(InOrder, With(s, CloseOf(t, e)), evs, d)
    ensures NoDoubleBooking(d)
    decreases |evs|
  {
    var x := CloseOf(t, e);
    if evs == [] {
      InvPreventsDoubleBooking(s, m);
      forall n1, t1, n2, t2 |
        && Open(d, n1, t1) && Open(d, n2, t2)
        && d.shards[n1].tickets[t1].ingeniero == d.shards[n2].tickets[t2].ingeniero
        && t1 !in d.freed && t2 !in d.freed
        ensures n1 == n2 && t1 == t2
      {
        assert Open(s, n1, t1) && Open(s, n2, t2);
      }
    } else {
      var c :| StepOf(InOrder)(With(s, x), evs[0], c) && Paths.Leads(StepOf(InOrder), c, evs[1..], d);
      if evs[0].Arrive? && evs[0].m == x {
        WithArrives(s, t, e, evs[0].now);
        forall u | Has(s, e, u) ensures Stuck(s, u, e) {
          OnlyStuck(s, e, u);
        }
        AgainIsSafe(s, m, t, e, evs[0].now);
        assert Reaches(InOrder, c, d);
      } else {
        WithStep(s, x, evs[0]);
        UnbookableStep(s, m, evs[0], e);
        StaysWithout(s, m, evs[0], e, t);
        StrayAlong(Next(s, evs[0]), m, t, e, evs[1..], d);
      }
    }
  }

  lemma OnlyStuck(s: System, e: int, u: int)
    requires OneLivePerEngineer(s) && Has(s, e, u)
    requires (exists v {:trigger Stuck(s, v, e)} :: Stuck(s, v, e)) || Blocked(s, e)
    ensures Stuck(s, u, e)
  {
    if v :| Stuck(s, v, e) {
      OneTicket(s, e, u, v);
    }
  }

  /** He does not get ticket t either. */
  lemma StaysWithout(s: System, m: int, ev: Event, e: int, t: int)
    requires Unbookable(s, m, e) && !Has(s, e, t) && Enabled(s, ev) && Orderly(s, ev)
    ensures !Has(Next(s, ev), e, t)
  {
    var d := Next(s, ev);
    StepKeeps(s, m, ev);
    if u :| Stuck(s, u, e) {
      StuckStep(s, m, ev, u, e);
      if Has(d, e, t) {
        OneTicket(d, e, t, u);
      }
    } else {
      StepBlocked(s, m, ev, e);
    }
  }

  lemma StrayIsSafe(s: System, m: int, t: int, e: int)
    requires Unbookable(s, m, e) && !Has(s, e, t)
    ensures SafeFrom(With(s, CloseOf(t, e)))
  {
    forall d | Reaches(InOrder, With(s, CloseOf(t, e)), d) ensures NoDoubleBooking(d) {
      var evs :| Paths.Leads(StepOf(InOrder), With(s, CloseOf(t, e)), evs, d);
      StrayAlong(s, m, t, e, evs, d);
    }
  }

  // ---- what a close that arrives too late leads to ---------------------------------------------------------

  /** There can be a raise, and another one after that: the lock is not lost, and nobody who waits for it has
      given up. */
  ghost predicate Lively(s: System, m: int) {
    CanBeHad(s, m) && P.NoneFailed(s.lock, m)
  }

  lemma NotSafeFromFurther(d: System, x: System)
    requires Reaches(InOrder, d, x) && !SafeFrom(x)
    ensures !SafeFrom(d)
  {
    var y :| Reaches(InOrder, x, y) && !NoDoubleBooking(y);
    ReachesTrans(InOrder, d, x, y);
  }

  lemma StaleIsUnsafe(s: System, m: int, n: int, t: int, e: int)
    requires Sound(s, m) && CanBeHad(s, m) && IdsLeft(s) && Stale(s, n, t, e)
    requires forall q {:trigger Active(s, q)} :: Active(s, q) ==> NotFor(s, q, e)
    ensures !SafeFrom(s)
  {
    var x := StaleIsBookedAgain(s, m, n, t, e);
  }

  /** The arrival of a close makes its engineer look available. */
  lemma ArrivalFrees(s: System, x: int, e: int)
    requires HomeOf(e) in s.shards && e in s.shards[HomeOf(e)].ingenieros && CloseOf(x, e) in s.commits
    requires EngineersAt(s, HomeOf(e))
    ensures var ev := Arrive(CloseOf(x, e), "");
            && Enabled(s, ev) && Orderly(s, ev)
            && var d := Next(s, ev);
               && d.lock == s.lock && d.raises == s.raises && d.booked == s.booked && d.shards.Keys == s.shards.Keys
               && Available(d, e) && EngineersAt(d, HomeOf(e))
               && d.freed == (if BookedFor(s, x, e) then s.freed + {x} else s.freed)
               && (forall n :: n in s.shards ==> d.shards[n].tickets.Keys == s.shards[n].tickets.Keys)
               && (forall n, u :: n in s.shards && u in s.shards[n].tickets && u != x ==>
                     d.shards[n].tickets[u] == s.shards[n].tickets[u])
               && (forall y {:trigger CloseOf(y, e)} ::
                     y != x && CloseOf(y, e) in s.commits ==> CloseOf(y, e) in d.commits)
  {
  }

  /** The raise at work is brought to its end and releases; engineer e's ticket and the closes stay. */
  lemma ReleasesInOrder(s: System, m: int, r: ReqId, other: int) returns (a: System)
    requires Sound(s, m) && Active(s, r) && P.NoneFailed(s.lock, m) && NotFor(s, r, other)
    ensures Reaches(InOrder, s, a) && Sound(a, m) && Lively(a, m) && NobodyActive(a) && Untouched(s, a, other)
  {
    var d := RaiseEnds(s, m, r, other);
    HolderIsActive(d, m, r);
    ReleaseComesFree(d, m, r);
    ReleaseIsSound(d, m, r);
    ReleaseFailsNobody(d, m, r);
    ReachesOn(InOrder, s, d, Finish(r));
    a := Next(d, Finish(r));
  }

  lemma LeftAsBefore(a: System, d: System, m: int)
    requires Sound(a, m) && Lively(a, m)
    requires d.lock == a.lock && d.raises == a.raises && d.shards.Keys == a.shards.Keys
    ensures Sound(d, m) && Lively(d, m)
  {
    forall q | q in d.raises ensures Started(d, q) {
      assert Started(a, q);
    }
    assert Active(a, a.lock.engines[m].holder) == Active(d, d.lock.engines[m].holder);
  }

  /** Ticket id of engineer e is open at node n, and has not been closed at his branch. */
  ghost predicate OpenFor(s: System, n: int, id: int, e: int) {
    && Open(s, n, id) && s.shards[n].tickets[id].ingeniero == e && id !in s.freed
    && HomeOf(e) in s.shards && e in s.shards[HomeOf(e)].ingenieros && EngineersAt(s, HomeOf(e))
  }

  lemma OpenForUntouched(s: System, d: System, n: int, id: int, e: int, other: int)
    requires OpenFor(s, n, id, e) && Untouched(s, d, other)
    ensures OpenFor(d, n, id, e)
  {
  }

  /** Nobody has the lock; a close that does not belong to the open ticket arrives at its engineer's branch. */
  lemma FreedWhileOpen(a: System, m: int, n: int, id: int, e: int, x: int)
    requires Sound(a, m) && Lively(a, m) && Roomy(a, 0) && NobodyActive(a) && OpenFor(a, n, id, e)
    requires CloseOf(x, e) in a.commits && x != id
    ensures !SafeFrom(a)
  {
    var ev := Arrive(CloseOf(x, e), "");
    ArrivalFrees(a, x, e);
    OneStep(InOrder, a, ev);
    var d := Next(a, ev);
    LeftAsBefore(a, d, m);
    RoomLeavesIds(d);
    forall q ensures !Active(d, q) {
      assert !Active(a, q);
    }
    StaleIsUnsafe(d, m, n, id, e);
    NotSafeFromFurther(a, d);
  }

  /** A raise has an open ticket of engineer e, and a close that does not belong to it is on its way to his
      branch.  It arrives after the release. */
  lemma BookedThenFreed(s: System, m: int, r: ReqId, n: int, id: int, e: int, x: int)
    requires Sound(s, m) && Active(s, r) && P.NoneFailed(s.lock, m) && Roomy(s, 0)
    requires OpenFor(s, n, id, e) && WorksFor(s, r, e) && CloseOf(x, e) in s.commits && x != id
    ensures !SafeFrom(s)
  {
    var a := ReleasesInOrder(s, m, r, e + 1);
    OpenForUntouched(s, a, n, id, e, e + 1);
    FreedWhileOpen(a, m, n, id, e, x);
    NotSafeFromFurther(s, a);
  }

  /** An engineer looks available, and a close is on its way to his branch that does not belong to a ticket
      that he will get: he is booked, the close arrives, and he is booked again. */
  lemma AvailableThenFreed(s: System, m: int, e: int, x: int)
    requires Sound(s, m) && Lively(s, m) && Roomy(s, 1) && Available(s, e) && EngineersAt(s, HomeOf(e))
    requires forall q {:trigger Active(s, q)} :: Active(s, q) ==> NotFor(s, q, e)
    requires CloseOf(x, e) in s.commits
    ensures !SafeFrom(s)
  {
    var a, r := FreshRaise(s, m, e);
    var k := a.lock.attempts[r].owner;
    var id := SpareId(a, k, {x});
    assert EngineersAt(a, HomeOf(e)) && CloseOf(x, e) in a.commits;
    BooksAtOnce(InOrder, a, r, e, id);
    var b := JustBooked(a, r, k, e, id);
    ReachesTrans(InOrder, s, a, b);
    JustBookedIsSound(a, m, r, k, e, id);
    BookedFrom(a, r, k, e, id);
    BookedThenFreed(b, m, r, k, id, e, x);
    NotSafeFromFurther(s, b);
  }

  lemma BookedFrom(a: System, r: ReqId, k: int, e: int, id: int)
    requires Active(a, r) && k in a.shards && Unused(a, id) && Roomy(a, 1)
    requires HomeOf(e) in a.shards && e in a.shards[HomeOf(e)].ingenieros && EngineersAt(a, HomeOf(e))
    ensures var b := JustBooked(a, r, k, e, id);
            Roomy(b, 0) && OpenFor(b, k, id, e) && WorksFor(b, r, e)
  {
    var b := JustBooked(a, r, k, e, id);
    assert |b.booked| == |a.booked| + 1 by {
      assert b.booked.Keys == a.booked.Keys + {id};
    }
  }

  // ---- the branch applies the close at once --------------------------------------------------------------

  lemma CarriedOver(s: System, d: System, m: int)
    requires Sound(s, m) && Lively(s, m) && Roomy(s, 1) && d.lock == s.lock && d.raises == s.raises
    requires d.shards.Keys == s.shards.Keys && d.booked == s.booked && d.freed <= s.booked.Keys
    requires forall n :: n in s.shards ==> d.shards[n].tickets.Keys == s.shards[n].tickets.Keys
    ensures Sound(d, m) && Lively(d, m) && Roomy(d, 1)
  {
    LeftAsBefore(s, d, m);
  }

  lemma InRunIsRoomy(s: System, m: int)
    requires Inv(s, m) && |s.booked| + 1 < ID_SPAN
    ensures Roomy(s, 1)
  {
    forall n, t | n in s.shards && t in s.shards[n].tickets ensures t in s.booked {
      assert TicketsAt(s, n);
    }
  }

  /** A raise does not work for the engineer of a live ticket that is not its own. */
  lemma OthersAreForOthers(s: System, m: int, q: ReqId, u: int)
    requires Inv(s, m) && Active(s, q) && Live(s, u) && !InWindow(s, u)
    ensures NotFor(s, q, s.booked[u])
  {
    assert RaiseOk(s, q) && !Owns(s, q, u);
    match RaiseOf(s, q)
    case Inserted(v, _) => assert s.booked[v] == s.booked[u] && Live(s, v) ==> v == u;
    case Noted(v, _) => assert s.booked[v] == s.booked[u] && Live(s, v) ==> v == u;
    case Done(v, _) => assert s.booked[v] == s.booked[u] && Live(s, v) ==> v == u;
    case _ =>
  }

  lemma NobodyForTheIdle(s: System, m: int, q: ReqId, e: int)
    requires Inv(s, m) && Active(s, q) && NoTicket(s, e)
    ensures NotFor(s, q, e)
  {
    assert RaiseOk(s, q);
    match RaiseOf(s, q)
    case Inserted(v, _) => assert Live(s, v) ==> s.booked[v] != e;
    case Noted(v, _) => assert Live(s, v) ==> s.booked[v] != e;
    case Done(v, _) => assert Live(s, v) ==> s.booked[v] != e;
    case _ =>
  }

  /** The engineer has another ticket, which is open or will free him once more. */
  lemma AgainIsUnsafe(s: System, m: int, t: int, e: int, now: string, u: int)
    requires Inv(s, m) && Sound(s, m) && Lively(s, m) && Roomy(s, 1) && HomeOf(e) in s.shards
    requires !Has(s, e, t) && Has(s, e, u) && !InWindow(s, u)
    requires Open(s, HomeOf(u), u) || CloseOf(u, e) in s.commits
    ensures !SafeFrom(Again(s, t, e, now))
  {
    var d := Again(s, t, e, now);
    AgainFrees(s, t, e, now);
    assert LiveOk(s, u);
    CarriedOver(s, d, m);
    assert EngineersAt(d, HomeOf(e));
    forall q | Active(d, q) ensures NotFor(d, q, e) {
      OthersAreForOthers(s, m, q, u);
    }
    if Open(s, HomeOf(u), u) {
      assert TicketsAt(s, HomeOf(u));
      RoomLeavesIds(d);
      StaleIsUnsafe(d, m, HomeOf(u), u, e);
    } else {
      AvailableThenFreed(d, m, e, u);
    }
  }

  /** From s to d the engineer's branch has freed him of ticket t, and another close of t is on its way. */
  lemma FreedTwiceIsUnsafe(s: System, d: System, m: int, t: int)
    requires Inv(s, m) && Sound(s, m) && Lively(s, m) && Roomy(s, 1) && t !in s.freed && Frees(s, d, t)
    requires CloseOf(t, s.booked[t]) in d.commits && EngineersAt(d, HomeOf(s.booked[t]))
    ensures !SafeFrom(d)
  {
    CarriedOver(s, d, m);
    forall q | Active(d, q) ensures NotFor(d, q, s.booked[t]) {
      FreedIsForNobody(s, d, m, t, q);
    }
    AvailableThenFreed(d, m, s.booked[t], t);
  }

  // ---- the close has to travel, and is not of a ticket of his ---------------------------------------------

  /** The engineer has no ticket, but the raise at work has read him as available, or chosen him already. */
  lemma ChosenThenFreed(s: System, m: int, r: ReqId, e: int, x: int)
    requires Sound(s, m) && P.NoneFailed(s.lock, m) && Roomy(s, 1) && AboutToBook(s, r, e)
    requires HomeOf(e) in s.shards && e in s.shards[HomeOf(e)].ingenieros && EngineersAt(s, HomeOf(e))
    requires CloseOf(x, e) in s.commits
    ensures !SafeFrom(s)
  {
    var k := s.lock.attempts[r].owner;
    var id := SpareId(s, k, {x});
    ChoosesHim(s, r, e);
    InsertsNow(s, r, k, e, id);
    ReachesOn(InOrder, s, At(s, r, Chosen(e)), Insert(r, id, 0, 0, "", true, {}));
    var b := JustBooked(s, r, k, e, id);
    JustBookedIsSound(s, m, r, k, e, id);
    BookedFrom(s, r, k, e, id);
    BookedThenFreed(b, m, r, k, id, e, x);
    NotSafeFromFurther(s, b);
  }

  lemma ChoosesHim(s: System, r: ReqId, e: int)
    requires AboutToBook(s, r, e)
    ensures Reaches(InOrder, s, At(s, r, Chosen(e)))
  {
    if RaiseOf(s, r).Reading? {
      OneStep(InOrder, s, Choose(r));
    } else {
      assert At(s, r, Chosen(e)) == s;
      ReachesSelf(InOrder, s);
    }
  }

  /** Nobody knows the engineer yet; he can be added, and is available then. */
  lemma AddsHim(s: System, e: int)
    requires HomeOf(e) in s.shards && e !in s.shards[HomeOf(e)].ingenieros && EngineersAt(s, HomeOf(e))
    ensures var ev := AddIngeniero(HomeOf(e), Ingeniero(e, "", HomeOf(e), 1), true, {});
            && Enabled(s, ev) && Orderly(s, ev)
            && var d := Next(s, ev);
               && d == s.(shards := d.shards) && d.shards.Keys == s.shards.Keys
               && (forall n :: n in s.shards ==> d.shards[n].tickets == s.shards[n].tickets)
               && Available(d, e) && EngineersAt(d, HomeOf(e))
  {
    var row := Ingeniero(e, "", HomeOf(e), 1);
    assert Peers(s, HomeOf(e), {});
    assert Messages(InsertIngeniero(row), {}) == multiset{};
  }

  lemma AddedThenFreed(s: System, m: int, e: int, x: int)
    requires Sound(s, m) && Lively(s, m) && Roomy(s, 1) && CloseOf(x, e) in s.commits
    requires forall q {:trigger Active(s, q)} :: Active(s, q) ==> NotFor(s, q, e)
    requires HomeOf(e) in s.shards && e !in s.shards[HomeOf(e)].ingenieros && EngineersAt(s, HomeOf(e))
    ensures !SafeFrom(s)
  {
    var ev := AddIngeniero(HomeOf(e), Ingeniero(e, "", HomeOf(e), 1), true, {});
    AddsHim(s, e);
    OneStep(InOrder, s, ev);
    var a := Next(s, ev);
    CarriedOver(s, a, m);
    forall q | Active(a, q) ensures NotFor(a, q, e) {
      assert Active(s, q);
    }
    AvailableThenFreed(a, m, e, x);
    NotSafeFromFurther(s, a);
  }

  lemma IdleIsUnsafe(s: System, m: int, e: int, x: int)
    requires Inv(s, m) && Sound(s, m) && Lively(s, m) && Roomy(s, 1) && NoTicket(s, e) && HomeOf(e) in s.shards
    requires !Blocked(s, e)
    ensures !SafeFrom(With(s, CloseOf(x, e)))
  {
    var d := With(s, CloseOf(x, e));
    CarriedOver(s, d, m);
    assert EngineersAt(s, HomeOf(e));
    assert EngineersAt(d, HomeOf(e));
    forall q | Active(d, q) ensures NotFor(d, q, e) {
      NobodyForTheIdle(s, m, q, e);
    }
    if e !in s.shards[HomeOf(e)].ingenieros {
      AddedThenFreed(d, m, e, x);
    } else if Available(s, e) {
      AvailableThenFreed(d, m, e, x);
    } else {
      var r :| AboutToBook(s, r, e);
      ChosenThenFreed(d, m, r, e, x);
    }
  }

  lemma WindowIsUnsafe(s: System, m: int, e: int, u: int, x: int)
    requires Inv(s, m) && Sound(s, m) && Lively(s, m) && Roomy(s, 1) && Has(s, e, u) && InWindow(s, u) && x != u
    requires Open(s, HomeOf(u), u) || CloseOf(u, e) in s.commits
    ensures !SafeFrom(With(s, CloseOf(x, e)))
  {
    var d := With(s, CloseOf(x, e));
    var r :| Owns(s, r, u);
    assert LiveOk(s, u) && RaiseOk(s, r) && EngineersAt(s, HomeOf(e));
    CarriedOver(s, d, m);
    assert WorksFor(d, r, e) && EngineersAt(d, HomeOf(e));
    if Open(s, HomeOf(u), u) {
      assert TicketsAt(s, HomeOf(u));
      BookedThenFreed(d, m, r, HomeOf(u), u, e, x);
    } else {
      ReleasedThenFreed(d, m, r, e, u, x);
    }
  }

  /** Nobody has the lock, and two closes are on their way to the engineer's branch. */
  lemma FreedTwoTimes(a: System, m: int, e: int, u: int, x: int)
    requires Sound(a, m) && Lively(a, m) && Roomy(a, 1) && NobodyActive(a) && x != u
    requires HomeOf(e) in a.shards && e in a.shards[HomeOf(e)].ingenieros && EngineersAt(a, HomeOf(e))
    requires CloseOf(x, e) in a.commits && CloseOf(u, e) in a.commits
    ensures !SafeFrom(a)
  {
    var ev := Arrive(CloseOf(x, e), "");
    ArrivalFrees(a, x, e);
    OneStep(InOrder, a, ev);
    var b := Next(a, ev);
    CarriedOver(a, b, m);
    forall q ensures !Active(b, q) {
      assert !Active(a, q);
    }
    AvailableThenFreed(b, m, e, u);
    NotSafeFromFurther(a, b);
  }

  lemma ReleasedThenFreed(d: System, m: int, r: ReqId, e: int, u: int, x: int)
    requires Sound(d, m) && Lively(d, m) && Roomy(d, 1) && Active(d, r) && WorksFor(d, r, e) && x != u
    requires HomeOf(e) in d.shards && e in d.shards[HomeOf(e)].ingenieros && EngineersAt(d, HomeOf(e))
    requires CloseOf(x, e) in d.commits && CloseOf(u, e) in d.commits
    ensures !SafeFrom(d)
  {
    var a := ReleasesInOrder(d, m, r, e + 1);
    assert CloseOf(x, e) in a.commits && CloseOf(u, e) in a.commits;
    FreedTwoTimes(a, m, e, u, x);
    NotSafeFromFurther(d, a);
  }

  /** His tickets are open as long as no close of theirs has been committed. */
  ghost predicate OpenUnlessClosing(s: System, e: int) {
    forall u {:trigger Has(s, e, u)} :: Has(s, e, u) && u !in s.closing ==> Open(s, HomeOf(u), u)
  }

  /** Whatever the engineer has or has not, unless he is stuck or blocked. */
  lemma StrayIsUnsafe(s: System, m: int, t: int, e: int)
    requires Inv(s, m) && Sound(s, m) && Lively(s, m) && Roomy(s, 1) && HomeOf(e) in s.shards
    requires OpenUnlessClosing(s, e) && !Has(s, e, t) && !Unbookable(s, m, e)
    ensures !SafeFrom(With(s, CloseOf(t, e)))
  {
    if NoTicket(s, e) {
      IdleIsUnsafe(s, m, e, t);
    } else {
      var u :| u in s.booked && Live(s, u) && s.booked[u] == e;
      assert Has(s, e, u) && !Stuck(s, u, e);
      if InWindow(s, u) {
        WindowIsUnsafe(s, m, e, u, t);
      } else {
        AgainIsUnsafe(s, m, t, e, "", u);
        WithArrives(s, t, e, "");
        OneStep(InOrder, With(s, CloseOf(t, e)), Arrive(CloseOf(t, e), ""));
        NotSafeFromFurther(With(s, CloseOf(t, e)), Again(s, t, e, ""));
      }
    }
  }

  // ---- the request -----------------------------------------------------------------------------------------

  /** From s to b a close of ticket t has been committed and has got to other branches than engineer e's. */
  ghost predicate Elsewhere(s: System, b: System, t: int, e: int) {
    && b == s.(shards := b.shards, commits := b.commits) && b.shards.Keys == s.shards.Keys
    && (forall n :: n in s.shards ==> b.shards[n].ingenieros == s.shards[n].ingenieros)
    && (forall n :: n in s.shards ==> b.shards[n].tickets.Keys == s.shards[n].tickets.Keys)
    && (forall n, u :: n in s.shards && u in s.shards[n].tickets && u != t ==>
          b.shards[n].tickets[u] == s.shards[n].tickets[u])
    && (forall u {:trigger CloseOf(u, e)} :: CloseOf(u, e) in b.commits <==> CloseOf(u, e) in s.commits)
  }

  /** A close of a ticket that has been closed before, or is not the engineer's. */
  lemma ClosedBefore(s: System, node: int, t: int, e: int, now: string, applied: bool, targets: set<int>)
    requires Peers(s, node, targets) && (BookedFor(s, t, e) ==> t in s.closing)
    ensures Next(s, Close(node, t, e, now, applied, targets))
            == Committed(s, node, CloseTicket(t, e), now, applied, targets)
  {
    if BookedFor(s, t, e) {
      assert s.closing + {t} == s.closing;
    }
  }

  lemma SentElsewhere(s: System, t: int, e: int, targets: set<int>)
    requires HomeOf(e) !in targets
    ensures Elsewhere(s, s.(commits := s.commits + Messages(CloseTicket(t, e), targets)), t, e)
  {
    var b := s.(commits := s.commits + Messages(CloseTicket(t, e), targets));
    forall u ensures CloseOf(u, e) in b.commits <==> CloseOf(u, e) in s.commits {
      assert CloseOf(u, e) in Messages(CloseTicket(t, e), targets) ==> HomeOf(e) in targets;
    }
  }

  lemma AppliedElsewhere(s: System, b: System, node: int, t: int, e: int, now: string)
    requires Elsewhere(s, b, t, e) && node in s.shards && node != HomeOf(e) && EngineersAt(s, node)
    ensures Elsewhere(s, Applied(b, node, CloseTicket(t, e), now), t, e)
  {
    assert e !in b.shards[node].ingenieros;
  }

  lemma GoesElsewhere(s: System, node: int, t: int, e: int, now: string, applied: bool, targets: set<int>)
    requires ShardsOk(s) && Peers(s, node, targets) && !GetsTo(node, applied, targets, HomeOf(e))
    requires BookedFor(s, t, e) ==> t in s.closing
    ensures Elsewhere(s, Next(s, Close(node, t, e, now, applied, targets)), t, e)
  {
    ClosedBefore(s, node, t, e, now, applied, targets);
    SentElsewhere(s, t, e, targets);
    if applied {
      assert EngineersAt(s, node);
      AppliedElsewhere(s, s.(commits := s.commits + Messages(CloseTicket(t, e), targets)), node, t, e, now);
    }
  }

  lemma ElsewhereSame(s: System, b: System, t: int, e: int)
    requires Elsewhere(s, b, t, e) && !Has(s, e, t)
    ensures forall u {:trigger Has(b, e, u)} {:trigger Has(s, e, u)} :: Has(b, e, u) <==> Has(s, e, u)
    ensures forall u {:trigger Stuck(b, u, e)} {:trigger Stuck(s, u, e)} :: Stuck(b, u, e) <==> Stuck(s, u, e)
    ensures forall u {:trigger InWindow(b, u)} {:trigger InWindow(s, u)} :: InWindow(b, u) <==> InWindow(s, u)
    ensures Blocked(b, e) <==> Blocked(s, e)
    ensures OpenUnlessClosing(s, e) ==> OpenUnlessClosing(b, e)
  {
    forall u ensures Stuck(b, u, e) <==> Stuck(s, u, e) {
      assert Has(b, e, u) <==> Has(s, e, u);
    }
    forall u ensures InWindow(b, u) <==> InWindow(s, u) {
      forall r ensures Owns(b, r, u) <==> Owns(s, r, u) {
      }
    }
    forall r ensures AboutToBook(b, r, e) <==> AboutToBook(s, r, e) {
    }
    assert Available(b, e) <==> Available(s, e);
    assert NoTicket(b, e) <==> NoTicket(s, e);
    if OpenUnlessClosing(s, e) {
      forall u | Has(b, e, u) && u !in b.closing ensures Open(b, HomeOf(u), u) {
        assert Has(s, e, u);
      }
    }
  }

  lemma MessagesBut(op: Op, targets: set<int>, h: int)
    requires h in targets
    ensures Messages(op, targets) == Messages(op, targets - {h}) + multiset{CommitMsg(h, op)}
  {
    var all, rest := Messages(op, targets), Messages(op, targets - {h}) + multiset{CommitMsg(h, op)};
    forall x ensures all[x] == rest[x] {
      assert x in all <==> x in rest;
    }
  }

  /** A close that travels to the engineer's branch is one that goes elsewhere, with that COMMIT added. */
  lemma Travels(s: System, m: int, node: int, t: int, e: int, now: string, applied: bool, targets: set<int>)
    requires Inv(s, m) && Peers(s, node, targets) && HomeOf(e) in targets && (BookedFor(s, t, e) ==> t in s.closing)
    ensures var others := Close(node, t, e, now, applied, targets - {HomeOf(e)});
            && Enabled(s, others) && Inv(Next(s, others), m) && Elsewhere(s, Next(s, others), t, e)
            && Next(s, Close(node, t, e, now, applied, targets)) == With(Next(s, others), CloseOf(t, e))
  {
    var less := targets - {HomeOf(e)};
    CloseKeeps(s, m, node, t, e, now, applied, less);
    GoesElsewhere(s, node, t, e, now, applied, less);
    ClosedBefore(s, node, t, e, now, applied, less);
    ClosedBefore(s, node, t, e, now, applied, targets);
    TravelsAs(s, node, CloseTicket(t, e), now, applied, targets, HomeOf(e));
  }

  lemma TravelsAs(s: System, node: int, op: Op, now: string, applied: bool, targets: set<int>, h: int)
    requires node in s.shards && h in targets
    ensures Committed(s, node, op, now, applied, targets)
            == With(Committed(s, node, op, now, applied, targets - {h}), CommitMsg(h, op))
  {
    var x, less := CommitMsg(h, op), Messages(op, targets - {h});
    MessagesBut(op, targets, h);
    assert s.commits + Messages(op, targets) == s.commits + less + multiset{x};
    if applied {
      WithApplied(s.(commits := s.commits + less), x, node, op, now);
    }
  }

  /** One that the branch applies itself is one that is sent to others only, and then applied. */
  lemma AppliesItself(s: System, m: int, t: int, e: int, now: string, targets: set<int>)
    requires Inv(s, m) && Peers(s, HomeOf(e), targets) && !Has(s, e, t)
    ensures var others := Close(HomeOf(e), t, e, now, false, targets);
            && Enabled(s, others) && Inv(Next(s, others), m) && Elsewhere(s, Next(s, others), t, e)
            && Next(s, Close(HomeOf(e), t, e, now, true, targets)) == Again(Next(s, others), t, e, now)
  {
    CloseKeeps(s, m, HomeOf(e), t, e, now, false, targets);
    GoesElsewhere(s, HomeOf(e), t, e, now, false, targets);
    ClosedBefore(s, HomeOf(e), t, e, now, false, targets);
    ClosedBefore(s, HomeOf(e), t, e, now, true, targets);
  }

  lemma ElsewhereCarriesOver(s: System, b: System, m: int, t: int, e: int)
    requires Elsewhere(s, b, t, e) && Sound(s, m) && Lively(s, m) && Roomy(s, 1)
    ensures Sound(b, m) && Lively(b, m) && Roomy(b, 1)
  {
    CarriedOver(s, b, m);
  }

  /** A second close of a ticket whose first one has yet to arrive. */
  lemma RepeatedIsUnsafe(s: System, m: int, node: int, t: int, e: int, now: string, applied: bool, targets: set<int>)
    requires Inv(s, m) && Sound(s, m) && Lively(s, m) && Roomy(s, 1) && Peers(s, node, targets)
    requires Has(s, e, t) && CloseOf(t, e) in s.commits && GetsTo(node, applied, targets, HomeOf(e))
    ensures !SafeFrom(Next(s, Close(node, t, e, now, applied, targets)))
  {
    var ev := Close(node, t, e, now, applied, targets);
    assert CommitOk(s, CloseOf(t, e)) && EngineersAt(s, HomeOf(e));
    if HomeOf(e) in targets {
      Travels(s, m, node, t, e, now, applied, targets);
      var b := Next(s, Close(node, t, e, now, applied, targets - {HomeOf(e)}));
      ElsewhereCarriesOver(s, b, m, t, e);
      AgainTwice(b, m, t, e);
    } else {
      AtOnceTwice(s, m, t, e, now, targets);
    }
  }

  lemma AgainTwice(b: System, m: int, t: int, e: int)
    requires Inv(b, m) && Sound(b, m) && Lively(b, m) && Roomy(b, 1) && Has(b, e, t) && CloseOf(t, e) in b.commits
    ensures !SafeFrom(With(b, CloseOf(t, e)))
  {
    var d, ev := With(b, CloseOf(t, e)), Arrive(CloseOf(t, e), "");
    assert LiveOk(b, t) && EngineersAt(b, HomeOf(e));
    var c := Again(b, t, e, "");
    AppliedFrees(b, b, HomeOf(e), CloseTicket(t, e), "", t);
    WithArrives(b, t, e, "");
    OneStep(InOrder, d, ev);
    FreedTwiceIsUnsafe(b, c, m, t);
    NotSafeFromFurther(d, c);
  }

  lemma AtOnceTwice(s: System, m: int, t: int, e: int, now: string, targets: set<int>)
    requires Inv(s, m) && Sound(s, m) && Lively(s, m) && Roomy(s, 1) && Peers(s, HomeOf(e), targets)
    requires Has(s, e, t) && CloseOf(t, e) in s.commits
    ensures !SafeFrom(Next(s, Close(HomeOf(e), t, e, now, true, targets)))
  {
    var ev := Close(HomeOf(e), t, e, now, true, targets);
    FreesAtOnce(s, t, e, now, targets);
    StepFrees(s, m, ev, t);
    FreedTwiceIsUnsafe(s, Next(s, ev), m, t);
  }

  lemma FreesAtOnce(s: System, t: int, e: int, now: string, targets: set<int>)
    requires Peers(s, HomeOf(e), targets) && Has(s, e, t) && CloseOf(t, e) in s.commits && ShardsOk(s)
    ensures var d := Next(s, Close(HomeOf(e), t, e, now, true, targets));
            t in d.freed && CloseOf(t, e) in d.commits && HomeOf(e) in d.shards && EngineersAt(d, HomeOf(e))
  {
    assert EngineersAt(s, HomeOf(e));
  }

  lemma MayCloseIsSafe(s: System, m: int, node: int, t: int, e: int, now: string, applied: bool, targets: set<int>)
    requires Inv(s, m) && Peers(s, node, targets) && MayClose(s, node, t, e, applied, targets)
    ensures SafeFrom(Next(s, Close(node, t, e, now, applied, targets)))
  {
    var h := HomeOf(e);
    if !GetsTo(node, applied, targets, h) || Has(s, e, t) {
      CloseKeeps(s, m, node, t, e, now, applied, targets);
      InvIsSafe(Next(s, Close(node, t, e, now, applied, targets)), m);
    } else if h in targets {
      Travels(s, m, node, t, e, now, applied, targets);
      var b := Next(s, Close(node, t, e, now, applied, targets - {h}));
      ElsewhereSame(s, b, t, e);
      assert Unbookable(b, m, e);
      StrayIsSafe(b, m, t, e);
    } else {
      AppliesItself(s, m, t, e, now, targets);
      var b := Next(s, Close(h, t, e, now, false, targets));
      ElsewhereSame(s, b, t, e);
      AgainIsSafe(b, m, t, e, now);
    }
  }

  lemma ElseIsUnsafe(s: System, m: int, node: int, t: int, e: int, now: string, applied: bool, targets: set<int>)
    requires Inv(s, m) && Sound(s, m) && Lively(s, m) && Roomy(s, 1) && OpenUnlessClosing(s, e)
    requires Peers(s, node, targets) && !MayClose(s, node, t, e, applied, targets)
    ensures !SafeFrom(Next(s, Close(node, t, e, now, applied, targets)))
  {
    var h := HomeOf(e);
    if Has(s, e, t) {
      RepeatedIsUnsafe(s, m, node, t, e, now, applied, targets);
    } else if h in targets {
      Travels(s, m, node, t, e, now, applied, targets);
      var b := Next(s, Close(node, t, e, now, applied, targets - {h}));
      ElsewhereSame(s, b, t, e);
      ElsewhereCarriesOver(s, b, m, t, e);
      StrayIsUnsafe(b, m, t, e);
    } else {
      AppliesItself(s, m, t, e, now, targets);
      var b := Next(s, Close(h, t, e, now, false, targets));
      ElsewhereSame(s, b, t, e);
      ElsewhereCarriesOver(s, b, m, t, e);
      var u :| Has(s, e, u) && !InWindow(s, u) && !Stuck(s, u, e);
      assert Has(b, e, u) && !InWindow(b, u) && !Stuck(b, u, e);
      AgainIsUnsafe(b, m, t, e, now, u);
    }
  }

  /** Anybody asks for a ticket to be closed, at any moment of an orderly run: any node, any ticket ID, any
      engineer, for the first time or again, whatever its COMMIT reaches.  No orderly run that follows books
      anybody twice if and only if MayClose holds; as long, that is, as raises can go on at all. */
  lemma CloseIsExact(s: System, m: int, node: int, t: int, e: int, now: string, applied: bool, targets: set<int>)
    requires InRun(s, m) && Enabled(s, Close(node, t, e, now, applied, targets))
    ensures MayClose(s, node, t, e, applied, targets) ==>
              SafeFrom(Next(s, Close(node, t, e, now, applied, targets)))
    ensures Lively(s, m) && |s.booked| + 1 < ID_SPAN ==>
              (SafeFrom(Next(s, Close(node, t, e, now, applied, targets))) <==>
               MayClose(s, node, t, e, applied, targets))
  {
    if MayClose(s, node, t, e, applied, targets) {
      MayCloseIsSafe(s, m, node, t, e, now, applied, targets);
    } else if Lively(s, m) && |s.booked| + 1 < ID_SPAN {
      InRunIsRoomy(s, m);
      assert OpenUnlessClosing(s, e);
      ElseIsUnsafe(s, m, node, t, e, now, applied, targets);
    }
  }

  /** The same of a COMMIT of such a close at the moment at which it arrives, when it is not of a ticket of
      his. */
  lemma LateCloseIsExact(s: System, m: int, t: int, e: int, now: string)
    requires InRun(s, m) && HomeOf(e) in s.shards && !Has(s, e, t)
    ensures Enabled(With(s, CloseOf(t, e)), Arrive(CloseOf(t, e), now))
    ensures MayClose(s, HomeOf(e), t, e, true, {}) ==>
              SafeFrom(Next(With(s, CloseOf(t, e)), Arrive(CloseOf(t, e), now)))
    ensures Lively(s, m) && |s.booked| + 1 < ID_SPAN ==>
              (SafeFrom(Next(With(s, CloseOf(t, e)), Arrive(CloseOf(t, e), now))) <==>
               MayClose(s, HomeOf(e), t, e, true, {}))
  {
    WithArrives(s, t, e, now);
    if MayClose(s, HomeOf(e), t, e, true, {}) {
      AgainIsSafe(s, m, t, e, now);
    } else if Lively(s, m) && |s.booked| + 1 < ID_SPAN {
      InRunIsRoomy(s, m);
      var u :| Has(s, e, u) && !InWindow(s, u) && !Stuck(s, u, e);
      AgainIsUnsafe(s, m, t, e, now, u);
    }
  }

  // ---- what keeps an engineer busy, and what a list of tickets shows of it -----------------------------------

  /** In every orderly run: a live ticket is open where it is kept, or its close has been committed; and an
      open one has exactly the engineer whom its row names, unless its close has freed him already. */
  lemma LiveOrOpen(start: System, m: int, s: System, t: int)
    requires Init(start, m) && m in start.shards && Reaches(InOrder, start, s)
    ensures t in s.booked && Live(s, t) ==> Open(s, HomeOf(t), t) || t in s.closing
    ensures forall n :: Open(s, n, t) ==>
              n == HomeOf(t) && t in s.booked && s.shards[n].tickets[t].ingeniero == s.booked[t]
              && (Has(s, s.booked[t], t) <==> t !in s.freed)
  {
    RunsAreInRun(start, m, s);
    forall n | Open(s, n, t)
      ensures n == HomeOf(t) && t in s.booked && s.shards[n].tickets[t].ingeniero == s.booked[t]
    {
      assert TicketsAt(s, n);
    }
  }
}
