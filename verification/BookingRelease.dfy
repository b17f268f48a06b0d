/** What makes a raise release the lock in good order: its last commit has been applied at the branch of
    its engineer (raiseTicket in internal/service/ticket_service.go).  The code does not wait for that. */
module BookingRelease {
  import opened Common
  import opened Database
  import opened IdAllocation
  import opened LockEngine
  import opened Booking
  import L = LockCluster

  /** The engineer of a finished raise is unavailable at his shard, or his ticket has been closed there. */
  predicate Marked(s: System, r: ReqId) {
    var at := RaiseOf(s, r);
    at.Done? && (at.ticket in s.freed || !Available(s, at.eng))
  }

  // ---- the mark takes hold --------------------------------------------------------------------------

  /** The raises whose mark an event applies at their engineer's shard. */
  predicate Confirms(s: System, ev: Event, r: ReqId) {
    match ev
    case Mark(q, applied, _) =>
      && q == r && applied && Active(s, r) && (RaiseOf(s, r).Noted? || RaiseOf(s, r).Done?)
      && HomeOf(RaiseOf(s, r).eng) == s.lock.attempts[r].owner
    case Arrive(m, _) =>
      RaiseOf(s, r).Done? && m == CommitMsg(HomeOf(RaiseOf(s, r).eng), UpdateDisponible(RaiseOf(s, r).eng, 0))
    case _ => false
  }

  lemma MarkTakesHold(s: System, ev: Event, r: ReqId)
    requires Enabled(s, ev) && Confirms(s, ev, r)
    ensures Marked(Next(s, ev), r)
  {
  }

  // ---- and stays until the release --------------------------------------------------------------------

  lemma CalmerMarked(s: System, d: System, r: ReqId)
    requires Calmer(s, d) && d.raises == s.raises && RaiseOk(s, r) && Marked(s, r)
    ensures Marked(d, r) && RaiseOk(d, r)
  {
    var t, e := RaiseOf(s, r).ticket, RaiseOf(s, r).eng;
    RaiseFrame(s, d, r);
    if t !in d.freed && Available(d, e) {
      assert Live(d, t);
    }
  }

  lemma AppliedMarked(s: System, m: int, n: int, op: Op, now: string, r: ReqId)
    requires ShardsOk(s) && BookingOk(s) && n in s.shards && Harmless(s, n, op) && RaiseOk(s, r) && Marked(s, r)
    ensures Marked(Applied(s, n, op, now), r)
  {
    AppliedIsCalmer(s, n, op, now);
    CalmerMarked(s, Applied(s, n, op, now), r);
  }

  lemma CommittedMarked(s: System, m: int, n: int, op: Op, now: string, applied: bool, targets: set<int>, r: ReqId)
    requires Inv(s, m) && n in s.shards && Harmless(s, n, op) && RaiseOk(s, r) && Marked(s, r)
    ensures Marked(Committed(s, n, op, now, applied, targets), r)
  {
    var b := s.(commits := s.commits + Messages(op, targets));
    assert Calmer(s, b);
    CalmerMarked(s, b, r);
    SameBut(s, b, m);
    if applied {
      AppliedMarked(b, m, n, op, now, r);
    }
  }

  lemma ArrivalMarked(s: System, m: int, msg: CommitMsg, now: string, r: ReqId)
    requires Inv(s, m) && msg in s.commits && msg.to in s.shards && RaiseOk(s, r) && Marked(s, r)
    ensures Marked(Next(s, Arrive(msg, now)), r)
  {
    var b := s.(commits := s.commits - multiset{msg});
    assert CommitOk(s, msg);
    assert Calmer(s, b);
    CalmerMarked(s, b, r);
    SameBut(s, b, m);
    AppliedMarked(b, m, msg.to, msg.op, now, r);
  }

  lemma CloseMarked(s: System, m: int, ev: Event, r: ReqId)
    requires Inv(s, m) && ev.Close? && Enabled(s, ev) && Orderly(s, ev) && RaiseOk(s, r) && Marked(s, r)
    ensures Marked(Next(s, ev), r)
  {
    match ev
    case Close(node, t, e, now, applied, targets) =>
      var b := if applied || targets != {} then s.(closing := s.closing + {t}) else s;
      assert Calmer(s, b);
      CalmerMarked(s, b, r);
      if applied || targets != {} {
        ClosingKeepsInv(s, b, m, t);
        CommittedMarked(b, m, node, CloseTicket(t, e), now, applied, targets, r);
      }
  }

  lemma ClosingKeepsInv(s: System, b: System, m: int, t: int)
    requires Inv(s, m) && t in s.booked && b == s.(closing := s.closing + {t})
    ensures Inv(b, m)
  {
    assert Calmer(s, b);
    CalmerKeeps(s, b);
    forall q | q in b.raises ensures Started(b, q) {
      assert Started(s, q);
    }
    forall n | n in b.shards ensures EngineersAt(b, n) && TicketsAt(b, n) {
      assert EngineersAt(s, n) && TicketsAt(s, n);
    }
    forall x | x in b.commits ensures CommitOk(b, x) {
      assert CommitOk(s, x);
    }
  }

  /** The events of the raise that has the lock, but for a repeated mark. */
  function Raiser(ev: Event): Option<ReqId> {
    match ev
    case Read(r, _, _) => Some(r)
    case Choose(r) => Some(r)
    case Abandon(r) => Some(r)
    case Insert(r, _, _, _, _, _, _) => Some(r)
    case Note(r, _, _, _) => Some(r)
    case Finish(r) => Some(r)
    case _ => None
  }

  /** Nothing but the release moves a raise that has been marked. */
  lemma MarkedStays(s: System, m: int, ev: Event, r: ReqId)
    requires Inv(s, m) && Enabled(s, ev) && Orderly(s, ev) && Active(s, r) && Marked(s, r) && ev != Finish(r)
    ensures Marked(Next(s, ev), r)
  {
    assert RaiseOk(s, r);
    if Raiser(ev).Some? {
      OneActive(s, m, r, Raiser(ev).value);
    } else {
      match ev
      case LockStep(_) =>
      case Arrive(x, now) => ArrivalMarked(s, m, x, now, r);
      case Mark(q, applied, targets) =>
        OneActive(s, m, r, q);
        var e := RaiseOf(s, r).eng;
        CommittedMarked(s, m, s.lock.attempts[r].owner, UpdateDisponible(e, 0), "", applied, targets, r);
      case Close(_, _, _, _, _, _) => CloseMarked(s, m, ev, r);
      case AddIngeniero(node, row, applied, targets) =>
        CommittedMarked(s, m, node, InsertIngeniero(row), "", applied, targets, r);
      case _ =>
    }
  }

  /** A raise that has the lock after a step had it before or has just got it. */
  lemma ActiveBefore(s: System, m: int, ev: Event, r: ReqId)
    requires Inv(s, m) && Enabled(s, ev) && r in s.raises && Active(Next(s, ev), r)
    ensures Active(s, r) && ev != Finish(r)
  {
    assert Started(s, r);
    assert L.AttemptOk(s.lock, r);
    if ev.LockStep? {
      StepMoves(s.lock, ev.ev, r);
    } else if ev.Finish? {
      StepMoves(s.lock, L.LetGo(ev.r), r);
    }
  }

  // ---- runs that wait for the mark ----------------------------------------------------------------------

  /** The raises whose mark has been applied at their engineer's shard. */
  ghost predicate Confirmed(s: System, done: set<ReqId>) {
    forall r {:trigger Marked(s, r)} {:trigger r in done} ::
      r in done ==> r in s.raises && (Active(s, r) ==> Marked(s, r))
  }

  function Confirming(s: System, ev: Event, done: set<ReqId>): set<ReqId> {
    done + set r | r in s.raises && Confirms(s, ev, r)
  }

  /** As in an orderly step, but what is asked of a release is that the raise's mark has been applied at its
      engineer's branch, which a node could wait for. */
  predicate Punctual(s: System, ev: Event, done: set<ReqId>) {
    match ev
    case Finish(r) => RaiseOf(s, r).Done? ==> r in done
    case _ => Orderly(s, ev)
  }

  ghost predicate AlwaysPunctual(s: System, evs: seq<Event>, done: set<ReqId>)
    requires Legal(s, evs)
    decreases |evs|
  {
    evs == [] || (Punctual(s, evs[0], done) && AlwaysPunctual(Next(s, evs[0]), evs[1..], Confirming(s, evs[0], done)))
  }

  lemma RaisesGrow(s: System, ev: Event)
    requires Enabled(s, ev)
    ensures s.raises.Keys <= Next(s, ev).raises.Keys
  {
  }

  lemma ConfirmedStep(s: System, m: int, ev: Event, done: set<ReqId>)
    requires Inv(s, m) && Enabled(s, ev) && Confirmed(s, done) && Punctual(s, ev, done)
    ensures Orderly(s, ev) && Confirmed(Next(s, ev), Confirming(s, ev, done))
  {
    if ev.Finish? && RaiseOf(s, ev.r).Done? {
      assert Marked(s, ev.r);
    }
    RaisesGrow(s, ev);
    var d := Next(s, ev);
    forall r | r in Confirming(s, ev, done) ensures r in d.raises && (Active(d, r) ==> Marked(d, r)) {
      if Active(d, r) {
        ActiveBefore(s, m, ev, r);
        if Confirms(s, ev, r) {
          MarkTakesHold(s, ev, r);
        } else {
          assert Marked(s, r);
          MarkedStays(s, m, ev, r);
        }
      }
    }
  }

  lemma {:induction false} PunctualRunsAreOrderly(s: System, m: int, evs: seq<Event>, done: set<ReqId>)
    requires Inv(s, m) && Legal(s, evs) && Confirmed(s, done) && AlwaysPunctual(s, evs, done)
    ensures AlwaysOrderly(s, evs)
    decreases |evs|
  {
    if evs == [] {
    } else {
      ConfirmedStep(s, m, evs[0], done);
      StepKeeps(s, m, evs[0]);
      PunctualRunsAreOrderly(Next(s, evs[0]), m, evs[1..], Confirming(s, evs[0], done));
    }
  }

  /** If every raise lets its mark arrive before it releases the lock, no engineer is ever booked twice. */
  lemma PunctualRunsNeverDoubleBook(start: System, m: int, evs: seq<Event>)
    requires Init(start, m) && Legal(start, evs) && AlwaysPunctual(start, evs, {})
    ensures NoDoubleBooking(Run(start, evs))
  {
    InitIsOk(start, m);
    PunctualRunsAreOrderly(start, m, evs, {});
    OrderlyRunsNeverDoubleBook(start, m, evs);
  }
}
