/** When an engineer who has been freed stays available, and when he never becomes available again: the COMMITs
    that mark engineers unavailable arrive when they arrive, also after the close of the ticket that they
    belong to (raiseTicket and CloseTicket in internal/service/ticket_service.go). */
module BookingMarks {
  import opened Common
  import opened Database
  import opened IdAllocation
  import opened LockEngine
  import opened Booking
  import opened BookingRuns
  import opened BookingLimits
  import opened BookingCloses
  import L = LockCluster
  import Paths

  /** No ticket keeps engineer e busy. */
  ghost predicate NoTicket(s: System, e: int) {
    forall t {:trigger s.booked[t]} :: Live(s, t) ==> s.booked[t] != e
  }

  /** The raise has chosen engineer e, or is going to, as the first available one that it has read. */
  predicate AboutToBook(s: System, r: ReqId, e: int) {
    && Active(s, r)
    && match RaiseOf(s, r)
       case Reading(seen) => FirstAvailable(seen).Some? && FirstAvailable(seen).value.id == e
       case Chosen(x) => x == e
       case _ => false
  }

  /** Nobody has engineer e, nobody is about to have him, and his branch calls him unavailable. */
  ghost predicate Blocked(s: System, e: int) {
    && HomeOf(e) in s.shards && e in s.shards[HomeOf(e)].ingenieros && !Available(s, e) && NoTicket(s, e)
    && forall r {:trigger AboutToBook(s, r, e)} :: !AboutToBook(s, r, e)
  }

  // ---- a blocked engineer stays blocked ----------------------------------------------------------------

  lemma BlockedFrame(s: System, d: System, e: int)
    requires Blocked(s, e) && HomeOf(e) in d.shards && e in d.shards[HomeOf(e)].ingenieros && !Available(d, e)
    requires forall t {:trigger d.booked[t]} :: Live(d, t) && d.booked[t] == e ==> Live(s, t) && s.booked[t] == e
    requires forall r {:trigger AboutToBook(d, r, e)} :: AboutToBook(d, r, e) ==> AboutToBook(s, r, e)
    ensures Blocked(d, e)
  {
  }

  lemma AppliedBlocked(s: System, n: int, op: Op, now: string, e: int)
    requires Blocked(s, e) && n in s.shards
    requires op.CloseTicket? && n == HomeOf(e) ==> op.idIngeniero != e
    requires op.UpdateDisponible? ==> op.disponible == 0
    ensures Blocked(Applied(s, n, op, now), e)
  {
    BlockedFrame(s, Applied(s, n, op, now), e);
  }

  lemma CommittedBlocked(s: System, n: int, op: Op, now: string, applied: bool, targets: set<int>, e: int)
    requires Blocked(s, e) && n in s.shards
    requires op.CloseTicket? && n == HomeOf(e) ==> op.idIngeniero != e
    requires op.UpdateDisponible? ==> op.disponible == 0
    ensures Blocked(Committed(s, n, op, now, applied, targets), e)
  {
    var b := s.(commits := s.commits + Messages(op, targets));
    BlockedFrame(s, b, e);
    if applied {
      AppliedBlocked(b, n, op, now, e);
    }
  }

  lemma {:induction false} FirstOfTwo(a: seq<Ingeniero>, b: seq<Ingeniero>)
    ensures FirstAvailable(a + b) == if FirstAvailable(a).Some? then FirstAvailable(a) else FirstAvailable(b)
    decreases |a|
  {
    if a == [] {
      assert a + b == b;
    } else {
      assert (a + b)[1..] == a[1..] + b;
      FirstOfTwo(a[1..], b);
    }
  }

  lemma OwnStepBlocked(s: System, r: ReqId, at: Raise, e: int)
    requires Blocked(s, e) && !AboutToBook(At(s, r, at), r, e)
    ensures Blocked(At(s, r, at), e)
  {
    var d := At(s, r, at);
    forall q | AboutToBook(d, q, e) ensures AboutToBook(s, q, e) {
      assert q != r;
    }
    BlockedFrame(s, d, e);
  }

  lemma ReadIsAvailable(s: System, node: int, rows: seq<Ingeniero>)
    requires node in s.shards && Lists(rows, s.shards[node].ingenieros) && EngineersAt(s, node)
    requires FirstAvailable(rows).Some?
    ensures Available(s, FirstAvailable(rows).value.id)
  {
    var k: nat :| IsFirstAvailable(rows, k) && FirstAvailable(rows).value == rows[k];
  }

  /** Nothing can be read of a blocked engineer that makes a raise choose him. */
  lemma ReadBlocked(s: System, r: ReqId, node: int, rows: seq<Ingeniero>, e: int)
    requires Blocked(s, e) && Enabled(s, Read(r, node, rows)) && EngineersAt(s, node)
    ensures Blocked(Next(s, Read(r, node, rows)), e)
  {
    var seen, d := RaiseOf(s, r).seen, Next(s, Read(r, node, rows));
    FirstOfTwo(seen, rows);
    if FirstAvailable(rows).Some? {
      ReadIsAvailable(s, node, rows);
    }
    assert !AboutToBook(s, r, e);
    OwnStepBlocked(s, r, Reading(seen + rows), e);
  }

  lemma InsertBlocked(s: System, m: int, r: ReqId, id: int, u: int, dv: int, now: string, applied: bool,
                      targets: set<int>, e: int)
    requires Inv(s, m) && Blocked(s, e) && Enabled(s, Insert(r, id, u, dv, now, applied, targets))
    ensures Blocked(Inserting(s, r, id, u, dv, now, applied, targets), e)
  {
    var n, x := s.lock.attempts[r].owner, RaiseOf(s, r).eng;
    var op := InsertTicket(Ticket(id, u, x, n, dv, ABIERTO, "", now, ""));
    assert !AboutToBook(s, r, e);
    CommittedBlocked(s, n, op, now, applied, targets, e);
    if applied {
      var b := Committed(s, n, op, now, true, targets);
      var c := b.(booked := b.booked[id := x]);
      BlockedFrame(b, c, e);
      OwnStepBlocked(c, r, Inserted(id, x), e);
    }
  }

  lemma LockStepBlocked(s: System, m: int, ev: L.Event, e: int)
    requires Inv(s, m) && Blocked(s, e) && L.Enabled(s.lock, ev)
    ensures Blocked(s.(lock := L.Next(s.lock, ev)), e)
  {
    var d := s.(lock := L.Next(s.lock, ev));
    forall r | AboutToBook(d, r, e) ensures AboutToBook(s, r, e) {
      assert Started(s, r);
      StepMoves(s.lock, ev, r);
    }
    BlockedFrame(s, d, e);
  }

  lemma CloseBlocked(s: System, ev: Event, e: int)
    requires CommitsOk(s) && s.freed <= s.closing && ev.Close? && Enabled(s, ev) && Orderly(s, ev) && Blocked(s, e)
    ensures Blocked(Next(s, ev), e)
  {
    match ev
    case Close(node, t, x, now, applied, targets) =>
      var b := if (applied || targets != {}) && BookedFor(s, t, x) then s.(closing := s.closing + {t}) else s;
      BlockedFrame(s, b, e);
      FirstCloseIsDue(s, t, x);
      CommittedBlocked(b, node, CloseTicket(t, x), now, applied, targets, e);
  }

  lemma ArriveBlocked(s: System, x: CommitMsg, now: string, e: int)
    requires CommitsOk(s) && Enabled(s, Arrive(x, now)) && Blocked(s, e)
    ensures Blocked(Next(s, Arrive(x, now)), e)
  {
    var b := s.(commits := s.commits - multiset{x});
    assert CommitOk(s, x);
    BlockedFrame(s, b, e);
    AppliedBlocked(b, x.to, x.op, now, e);
  }

  lemma StepBlocked(s: System, m: int, ev: Event, e: int)
    requires Inv(s, m) && Enabled(s, ev) && Orderly(s, ev) && Blocked(s, e)
    ensures Blocked(Next(s, ev), e)
  {
    match ev
    case LockStep(l) => LockStepBlocked(s, m, l, e);
    case Finish(r) => LockStepBlocked(s, m, L.LetGo(r), e);
    case Read(r, node, rows) => ReadBlocked(s, r, node, rows, e);
    case Choose(r) =>
      assert !AboutToBook(s, r, e);
      var found := FirstAvailable(RaiseOf(s, r).seen);
      OwnStepBlocked(s, r, if found.Some? then Chosen(found.value.id) else Nothing, e);
    case Abandon(r) => OwnStepBlocked(s, r, Nothing, e);
    case Insert(r, id, u, dv, now, applied, targets) => InsertBlocked(s, m, r, id, u, dv, now, applied, targets, e);
    case Note(r, folio, applied, targets) =>
      var n, at := s.lock.attempts[r].owner, RaiseOf(s, r);
      CommittedBlocked(s, n, UpdateTicketFolio(at.ticket, folio), "", applied, targets, e);
      OwnStepBlocked(Committed(s, n, UpdateTicketFolio(at.ticket, folio), "", applied, targets), r,
                     Noted(at.ticket, at.eng), e);
    case Mark(r, applied, targets) =>
      var n, at := s.lock.attempts[r].owner, RaiseOf(s, r);
      CommittedBlocked(s, n, UpdateDisponible(at.eng, 0), "", applied, targets, e);
      OwnStepBlocked(Committed(s, n, UpdateDisponible(at.eng, 0), "", applied, targets), r, Done(at.ticket, at.eng), e);
    case Arrive(x, now) => ArriveBlocked(s, x, now, e);
    case Close(_, _, _, _, _, _) => CloseBlocked(s, ev, e);
    case AddIngeniero(node, row, applied, targets) =>
      CommittedBlocked(s, node, InsertIngeniero(row), "", applied, targets, e);
  }

  /** An engineer without a ticket who is unavailable, and whom no raise is about to book, is never available
      again in any orderly run, so nobody ever books him. */
  lemma BlockedForGood(s: System, m: int, d: System, e: int)
    requires Inv(s, m) && Blocked(s, e) && Reaches(InOrder, s, d)
    ensures Blocked(d, e)
  {
    var blocked := x => Inv(x, m) && Blocked(x, e);
    forall x, ev, y | blocked(x) && StepOf(InOrder)(x, ev, y) ensures blocked(y) {
      StepKeeps(x, m, ev);
      StepBlocked(x, m, ev, e);
    }
    Paths.Kept(StepOf(InOrder), blocked, s, d);
  }

  // ---- whether a freed engineer stays available ----------------------------------------------------------

  /** The raise has booked engineer e and has yet to release. */
  predicate WorksFor(s: System, r: ReqId, e: int) {
    && Active(s, r)
    && match RaiseOf(s, r)
       case Inserted(_, x) => x == e
       case Noted(_, x) => x == e
       case Done(_, x) => x == e
       case _ => false
  }

  function MarkOf(e: int): CommitMsg {
    CommitMsg(HomeOf(e), UpdateDisponible(e, 0))
  }

  /** A mark of engineer e is on its way to his branch, or a raise that has booked him may still make one. */
  ghost predicate MarkComing(s: System, e: int) {
    MarkOf(e) in s.commits || exists r {:trigger WorksFor(s, r, e)} :: WorksFor(s, r, e)
  }

  predicate Books(s: System, ev: Event, e: int) {
    ev.Insert? && ev.applied && RaiseOf(s, ev.r) == Chosen(e)
  }

  /** Orderly steps that do not book engineer e. */
  ghost function StepBeside(e: int): (System, Event, System) -> bool {
    (s, ev, d) => Enabled(s, ev) && Orderly(s, ev) && !Books(s, ev, e) && Next(s, ev) == d
  }

  ghost predicate StaysAvailable(s: System, e: int) {
    forall d {:trigger Paths.Reaches(StepBeside(e), s, d)} :: Paths.Reaches(StepBeside(e), s, d) ==> Available(d, e)
  }

  ghost predicate Ready(s: System, e: int) {
    Available(s, e) && NoTicket(s, e) && !MarkComing(s, e)
  }

  lemma ReadyFrame(s: System, d: System, e: int)
    requires Ready(s, e) && Available(d, e) && (MarkOf(e) in d.commits ==> MarkOf(e) in s.commits)
    requires forall t {:trigger d.booked[t]} :: Live(d, t) && d.booked[t] == e ==> Live(s, t) && s.booked[t] == e
    requires forall r {:trigger WorksFor(d, r, e)} :: WorksFor(d, r, e) ==> WorksFor(s, r, e)
    ensures Ready(d, e)
  {
  }

  lemma AppliedReady(s: System, n: int, op: Op, now: string, e: int)
    requires Ready(s, e) && n in s.shards
    requires op.UpdateDisponible? ==> n != HomeOf(e) || op.idIngeniero != e
    ensures Ready(Applied(s, n, op, now), e)
  {
    ReadyFrame(s, Applied(s, n, op, now), e);
  }

  lemma CommittedReady(s: System, n: int, op: Op, now: string, applied: bool, targets: set<int>, e: int)
    requires Ready(s, e) && n in s.shards && (op.UpdateDisponible? ==> op.idIngeniero != e)
    ensures Ready(Committed(s, n, op, now, applied, targets), e)
  {
    var b := s.(commits := s.commits + Messages(op, targets));
    assert MarkOf(e) in Messages(op, targets) ==> MarkOf(e).op == op;
    ReadyFrame(s, b, e);
    if applied {
      AppliedReady(b, n, op, now, e);
    }
  }

  lemma OwnStepReady(s: System, r: ReqId, at: Raise, e: int)
    requires Ready(s, e) && !WorksFor(At(s, r, at), r, e)
    ensures Ready(At(s, r, at), e)
  {
    var d := At(s, r, at);
    forall q | WorksFor(d, q, e) ensures WorksFor(s, q, e) {
      assert q != r;
    }
    ReadyFrame(s, d, e);
  }

  lemma InsertReady(s: System, r: ReqId, id: int, u: int, dv: int, now: string, applied: bool,
                    targets: set<int>, e: int)
    requires Ready(s, e) && Enabled(s, Insert(r, id, u, dv, now, applied, targets))
    requires !Books(s, Insert(r, id, u, dv, now, applied, targets), e)
    ensures Ready(Inserting(s, r, id, u, dv, now, applied, targets), e)
  {
    var n, x := s.lock.attempts[r].owner, RaiseOf(s, r).eng;
    var op := InsertTicket(Ticket(id, u, x, n, dv, ABIERTO, "", now, ""));
    CommittedReady(s, n, op, now, applied, targets, e);
    if applied {
      var b := Committed(s, n, op, now, true, targets);
      var c := b.(booked := b.booked[id := x]);
      ReadyFrame(b, c, e);
      OwnStepReady(c, r, Inserted(id, x), e);
    }
  }

  lemma LockStepReady(s: System, m: int, ev: L.Event, e: int)
    requires Inv(s, m) && Ready(s, e) && L.Enabled(s.lock, ev)
    ensures Ready(s.(lock := L.Next(s.lock, ev)), e)
  {
    var d := s.(lock := L.Next(s.lock, ev));
    forall r | WorksFor(d, r, e) ensures WorksFor(s, r, e) {
      assert Started(s, r);
      StepMoves(s.lock, ev, r);
    }
    ReadyFrame(s, d, e);
  }

  lemma ArriveReady(s: System, x: CommitMsg, now: string, e: int)
    requires CommitsOk(s) && Enabled(s, Arrive(x, now)) && Ready(s, e)
    ensures Ready(Next(s, Arrive(x, now)), e)
  {
    var b := s.(commits := s.commits - multiset{x});
    assert CommitOk(s, x);
    ReadyFrame(s, b, e);
    AppliedReady(b, x.to, x.op, now, e);
  }

  lemma StepReady(s: System, m: int, ev: Event, e: int)
    requires Inv(s, m) && Enabled(s, ev) && Orderly(s, ev) && !Books(s, ev, e) && Ready(s, e)
    ensures Ready(Next(s, ev), e)
  {
    match ev
    case LockStep(l) => LockStepReady(s, m, l, e);
    case Finish(r) => LockStepReady(s, m, L.LetGo(r), e);
    case Read(r, node, rows) => OwnStepReady(s, r, Reading(RaiseOf(s, r).seen + rows), e);
    case Choose(r) =>
      var found := FirstAvailable(RaiseOf(s, r).seen);
      OwnStepReady(s, r, if found.Some? then Chosen(found.value.id) else Nothing, e);
    case Abandon(r) => OwnStepReady(s, r, Nothing, e);
    case Insert(r, id, u, dv, now, applied, targets) => InsertReady(s, r, id, u, dv, now, applied, targets, e);
    case Note(r, folio, applied, targets) =>
      var n, at := s.lock.attempts[r].owner, RaiseOf(s, r);
      assert !WorksFor(s, r, e);
      CommittedReady(s, n, UpdateTicketFolio(at.ticket, folio), "", applied, targets, e);
      OwnStepReady(Committed(s, n, UpdateTicketFolio(at.ticket, folio), "", applied, targets), r,
                   Noted(at.ticket, at.eng), e);
    case Mark(r, applied, targets) =>
      var n, at := s.lock.attempts[r].owner, RaiseOf(s, r);
      assert !WorksFor(s, r, e);
      CommittedReady(s, n, UpdateDisponible(at.eng, 0), "", applied, targets, e);
      OwnStepReady(Committed(s, n, UpdateDisponible(at.eng, 0), "", applied, targets), r, Done(at.ticket, at.eng), e);
    case Arrive(x, now) => ArriveReady(s, x, now, e);
    case Close(node, t, x, now, applied, targets) =>
      var b := if (applied || targets != {}) && BookedFor(s, t, x) then s.(closing := s.closing + {t}) else s;
      ReadyFrame(s, b, e);
      CommittedReady(b, node, CloseTicket(t, x), now, applied, targets, e);
    case AddIngeniero(node, row, applied, targets) =>
      CommittedReady(s, node, InsertIngeniero(row), "", applied, targets, e);
  }

  lemma ReadyStays(s: System, m: int, e: int)
    requires Inv(s, m) && Ready(s, e)
    ensures StaysAvailable(s, e)
  {
    var ready := x => Inv(x, m) && Ready(x, e);
    forall x, ev, y | ready(x) && StepBeside(e)(x, ev, y) ensures ready(y) {
      StepKeeps(x, m, ev);
      StepReady(x, m, ev, e);
    }
    forall d | Paths.Reaches(StepBeside(e), s, d) ensures Available(d, e) {
      Paths.Kept(StepBeside(e), ready, s, d);
    }
  }

  lemma Beside(s: System, d: System, ev: Event, e: int)
    requires Paths.Reaches(StepBeside(e), s, d) && Enabled(d, ev) && Orderly(d, ev) && !ev.Insert?
    ensures Paths.Reaches(StepBeside(e), s, Next(d, ev))
  {
    assert StepBeside(e)(d, ev, Next(d, ev));
    Paths.ReachesOn(StepBeside(e), s, d, ev, Next(d, ev));
  }

  lemma MarkTakesHim(s: System, e: int)
    requires HomeOf(e) in s.shards && MarkOf(e) in s.commits
    ensures Enabled(s, Arrive(MarkOf(e), "")) && !Available(Next(s, Arrive(MarkOf(e), "")), e)
    ensures var d := Next(s, Arrive(MarkOf(e), ""));
            && d == s.(shards := d.shards, commits := d.commits)
            && d.shards.Keys == s.shards.Keys
            && d.shards[HomeOf(e)].ingenieros.Keys == s.shards[HomeOf(e)].ingenieros.Keys
  {
  }

  /** A raise that has booked him makes him unavailable in a few steps. */
  lemma WorkerMarks(s: System, d: System, r: ReqId, e: int)
    requires Paths.Reaches(StepBeside(e), s, d) && WorksFor(d, r, e) && !RaiseOf(d, r).Inserted?
    requires HomeOf(e) in d.shards
    ensures !StaysAvailable(s, e)
  {
    if HomeOf(e) == d.lock.attempts[r].owner {
      var ev := Mark(r, true, {});
      assert Peers(d, HomeOf(e), {});
      Beside(s, d, ev, e);
      assert !Available(Next(d, ev), e);
    } else {
      var ev := Mark(r, false, {HomeOf(e)});
      var a := Next(d, ev);
      assert MarkOf(e) in Messages(UpdateDisponible(e, 0), {HomeOf(e)});
      Beside(s, d, ev, e);
      MarkTakesHim(a, e);
      Beside(s, a, Arrive(MarkOf(e), ""), e);
    }
  }

  lemma ComingMarkTakesHim(s: System, e: int)
    requires MarkComing(s, e) && HomeOf(e) in s.shards
    ensures !StaysAvailable(s, e)
  {
    Paths.ReachesSelf(StepBeside(e), s);
    if MarkOf(e) in s.commits {
      MarkTakesHim(s, e);
      Beside(s, s, Arrive(MarkOf(e), ""), e);
    } else {
      var r :| WorksFor(s, r, e);
      if RaiseOf(s, r).Inserted? {
        var ev := Note(r, "", false, {});
        assert Peers(s, s.lock.attempts[r].owner, {});
        Beside(s, s, ev, e);
        WorkerMarks(s, Next(s, ev), r, e);
      } else {
        WorkerMarks(s, s, r, e);
      }
    }
  }

  /** A close is applied at the engineer's branch.  He stays available until he is booked again, whatever else
      happens in good order, if and only if no mark of him is still under way, and none can come from a raise
      that is still at work on a ticket of his. */
  lemma CloseFreesIff(s: System, m: int, ev: Event, t: int)
    requires Inv(s, m) && Enabled(s, ev) && Orderly(s, ev) && t !in s.freed && t in Next(s, ev).freed
    ensures t in s.booked
    ensures StaysAvailable(Next(s, ev), s.booked[t]) <==> !MarkComing(Next(s, ev), s.booked[t])
  {
    var d := Next(s, ev);
    StepFrees(s, m, ev, t);
    StepKeeps(s, m, ev);
    var e := s.booked[t];
    assert NoTicket(d, e) by {
      forall u | Live(d, u) ensures d.booked[u] != e {
        assert Live(s, t) && Live(s, u);
      }
    }
    if MarkComing(d, e) {
      ComingMarkTakesHim(d, e);
    } else {
      ReadyStays(d, m, e);
    }
  }

  /** A mark that comes too late, when nobody has the engineer or is about to book him: he is unavailable for
      good. */
  lemma LateMarkBlocks(s: System, m: int, e: int)
    requires Inv(s, m) && NoTicket(s, e) && HomeOf(e) in s.shards && e in s.shards[HomeOf(e)].ingenieros
    requires MarkOf(e) in s.commits && forall r {:trigger AboutToBook(s, r, e)} :: !AboutToBook(s, r, e)
    ensures var late := Arrive(MarkOf(e), "");
            && Enabled(s, late) && Orderly(s, late)
            && forall d {:trigger Reaches(InOrder, Next(s, late), d)} ::
                 Reaches(InOrder, Next(s, late), d) ==> Blocked(d, e)
  {
    var late := Arrive(MarkOf(e), "");
    var a := Next(s, late);
    MarkTakesHim(s, e);
    StepKeeps(s, m, late);
    forall r ensures !AboutToBook(a, r, e) {
      assert !AboutToBook(s, r, e);
    }
    assert Blocked(a, e);
    forall d | Reaches(InOrder, a, d) ensures Blocked(d, e) {
      BlockedForGood(a, m, d, e);
    }
  }
}
