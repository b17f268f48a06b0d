/** Where the promise of module Booking ends, exactly: the code releases the lock without waiting for the
    COMMIT that marks the engineer unavailable (raiseTicket in internal/service/ticket_service.go). */
module BookingLimits {
  import opened Common
  import opened Database
  import opened IdAllocation
  import opened LockEngine
  import opened Booking
  import opened BookingRuns
  import L = LockCluster
  import P = LockPaths
  import G = LockGrants
  import Loss = LockLoss
  import Paths

  /** No orderly continuation books an engineer twice. */
  ghost predicate SafeFrom(s: System) {
    forall d {:trigger Reaches(InOrder, s, d)} :: Reaches(InOrder, s, d) ==> NoDoubleBooking(d)
  }

  predicate ClosesClosing(s: System, x: CommitMsg) {
    x.op.CloseTicket? ==> x.op.idTicket in s.closing
  }

  /** A ticket without a committed close is open where it is kept, and a close on its way has been committed. */
  ghost predicate OpenOk(s: System) {
    && (forall t {:trigger s.booked[t]} :: t in s.booked && t !in s.closing ==> Open(s, HomeOf(t), t))
    && (forall x {:trigger ClosesClosing(s, x)} :: x in s.commits ==> ClosesClosing(s, x))
  }

  /** What holds in every orderly run from a start. */
  ghost predicate InRun(s: System, m: int) {
    Inv(s, m) && Sound(s, m) && OpenOk(s)
  }

  lemma InvIsSafe(s: System, m: int)
    requires Inv(s, m)
    ensures SafeFrom(s)
  {
    forall d | Reaches(InOrder, s, d) ensures NoDoubleBooking(d) {
      ReachesInv(s, d, m);
      InvPreventsDoubleBooking(d, m);
    }
  }

  lemma SoundStep(s: System, m: int, ev: Event)
    requires Inv(s, m) && Sound(s, m) && Enabled(s, ev) && Orderly(s, ev)
    ensures Sound(Next(s, ev), m)
  {
    StepKeeps(s, m, ev);
    match ev
    case LockStep(e) => G.RegisteredStep(s.lock, e);
    case Finish(r) => G.RegisteredStep(s.lock, L.LetGo(r));
    case _ => LockUntouched(s, ev);
  }

  lemma LockUntouched(s: System, ev: Event)
    requires Enabled(s, ev) && !ev.LockStep? && !ev.Finish?
    ensures Next(s, ev).lock == s.lock
  {
  }

  lemma AppliedKeepsOpen(s: System, n: int, op: Op, now: string)
    requires OpenOk(s) && n in s.shards && (op.CloseTicket? ==> op.idTicket in s.closing)
    ensures OpenOk(Applied(s, n, op, now))
  {
    var d := Applied(s, n, op, now);
    forall t | t in d.booked && t !in d.closing ensures Open(d, HomeOf(t), t) {
      assert t in s.booked && Open(s, HomeOf(t), t);
    }
    SameCloses(s, d);
  }

  lemma SameCloses(s: System, d: System)
    requires OpenOk(s) && s.closing <= d.closing && d.commits <= s.commits
    ensures forall x {:trigger ClosesClosing(d, x)} :: x in d.commits ==> ClosesClosing(d, x)
  {
    forall x | x in d.commits ensures ClosesClosing(d, x) {
      assert x in s.commits && ClosesClosing(s, x);
    }
  }

  lemma CommittedKeepsOpen(s: System, n: int, op: Op, now: string, applied: bool, targets: set<int>)
    requires OpenOk(s) && n in s.shards
    requires op.CloseTicket? && (applied || targets != {}) ==> op.idTicket in s.closing
    ensures OpenOk(Committed(s, n, op, now, applied, targets))
  {
    var b := s.(commits := s.commits + Messages(op, targets));
    forall x | x in b.commits ensures ClosesClosing(b, x) {
      assert x in s.commits ==> ClosesClosing(s, x);
      assert x in Messages(op, targets) ==> x.op == op && x.to in targets;
    }
    forall t | t in b.booked && t !in b.closing ensures Open(b, HomeOf(t), t) {
      assert Open(s, HomeOf(t), t);
    }
    if applied {
      AppliedKeepsOpen(b, n, op, now);
    }
  }

  lemma InsertKeepsOpen(s: System, m: int, r: ReqId, id: int, u: int, dv: int, now: string, targets: set<int>)
    requires Inv(s, m) && OpenOk(s) && Enabled(s, Insert(r, id, u, dv, now, true, targets))
    ensures OpenOk(Inserting(s, r, id, u, dv, now, true, targets))
  {
    var n, e := s.lock.attempts[r].owner, RaiseOf(s, r).eng;
    var op := InsertTicket(Ticket(id, u, e, n, dv, ABIERTO, "", now, ""));
    var b := Committed(s, n, op, now, true, targets);
    var d := Inserting(s, r, id, u, dv, now, true, targets);
    CommittedKeepsOpen(s, n, op, now, true, targets);
    assert TicketsAt(s, n);
    forall t | t in d.booked && t !in d.closing ensures Open(d, HomeOf(t), t) {
      assert t != id ==> t in b.booked && Open(b, HomeOf(t), t);
    }
    SameCloses(b, d);
  }

  lemma SameOpen(s: System, d: System)
    requires OpenOk(s) && d == s.(lock := d.lock, raises := d.raises)
    ensures OpenOk(d)
  {
    forall t | t in d.booked && t !in d.closing ensures Open(d, HomeOf(t), t) {
      assert Open(s, HomeOf(t), t);
    }
    SameCloses(s, d);
  }

  lemma CloseKeepsOpen(s: System, ev: Event)
    requires OpenOk(s) && ev.Close? && Enabled(s, ev) && Orderly(s, ev)
    ensures OpenOk(Next(s, ev))
  {
    match ev
    case Close(node, t, e, now, applied, targets) =>
      var b := if (applied || targets != {}) && BookedFor(s, t, e) then s.(closing := s.closing + {t}) else s;
      forall u | u in b.booked && u !in b.closing ensures Open(b, HomeOf(u), u) {
        assert Open(s, HomeOf(u), u);
      }
      SameCloses(s, b);
      CommittedKeepsOpen(b, node, CloseTicket(t, e), now, applied, targets);
  }

  lemma OpenStep(s: System, m: int, ev: Event)
    requires Inv(s, m) && OpenOk(s) && Enabled(s, ev) && Orderly(s, ev)
    ensures OpenOk(Next(s, ev))
  {
    match ev
    case Insert(r, id, u, dv, now, applied, targets) =>
      if applied {
        InsertKeepsOpen(s, m, r, id, u, dv, now, targets);
      } else {
        var row := Ticket(id, u, RaiseOf(s, r).eng, s.lock.attempts[r].owner, dv, ABIERTO, "", now, "");
        CommittedKeepsOpen(s, s.lock.attempts[r].owner, InsertTicket(row), now, false, targets);
      }
    case Note(r, folio, applied, targets) =>
      var n, op := s.lock.attempts[r].owner, UpdateTicketFolio(RaiseOf(s, r).ticket, folio);
      CommittedKeepsOpen(s, n, op, "", applied, targets);
      SameOpen(Committed(s, n, op, "", applied, targets), Next(s, ev));
    case Mark(r, applied, targets) =>
      var n, op := s.lock.attempts[r].owner, UpdateDisponible(RaiseOf(s, r).eng, 0);
      CommittedKeepsOpen(s, n, op, "", applied, targets);
      SameOpen(Committed(s, n, op, "", applied, targets), Next(s, ev));
    case Arrive(x, now) =>
      var b := s.(commits := s.commits - multiset{x});
      forall t | t in b.booked && t !in b.closing ensures Open(b, HomeOf(t), t) {
        assert Open(s, HomeOf(t), t);
      }
      SameCloses(s, b);
      assert ClosesClosing(s, x);
      AppliedKeepsOpen(b, x.to, x.op, now);
    case Close(_, _, _, _, _, _) => CloseKeepsOpen(s, ev);
    case AddIngeniero(node, row, applied, targets) =>
      CommittedKeepsOpen(s, node, InsertIngeniero(row), "", applied, targets);
    case LockStep(_) | Read(_, _, _) | Choose(_) | Abandon(_) | Finish(_) => SameOpen(s, Next(s, ev));
  }

  lemma RunStep(s: System, m: int, ev: Event)
    requires InRun(s, m) && Enabled(s, ev) && Orderly(s, ev)
    ensures InRun(Next(s, ev), m)
  {
    StepKeeps(s, m, ev);
    SoundStep(s, m, ev);
    OpenStep(s, m, ev);
  }

  lemma StaysInRun(s: System, d: System, m: int)
    requires InRun(s, m) && Reaches(InOrder, s, d)
    ensures InRun(d, m)
  {
    var inRun := x => InRun(x, m);
    forall x, ev, y | inRun(x) && StepOf(InOrder)(x, ev, y) ensures inRun(y) {
      RunStep(x, m, ev);
    }
    Paths.Kept(StepOf(InOrder), inRun, s, d);
  }

  /** At every moment of every orderly run. */
  lemma RunsAreInRun(start: System, m: int, s: System)
    requires Init(start, m) && m in start.shards && Reaches(InOrder, start, s)
    ensures InRun(s, m)
  {
    InitIsOk(start, m);
    G.InitRegistered(start.lock);
    StaysInRun(start, s, m);
  }

  // ---- with a doomed lock nobody is booked any more --------------------------------------------------

  ghost predicate Dead(s: System, m: int) {
    && LockOk(s, m) && ShardsOk(s) && CommitsOk(s) && OneLivePerEngineer(s)
    && s.freed <= s.closing && s.closing <= s.booked.Keys
    && Loss.Doomed(s.lock, m)
  }

  lemma DeadNobodyActive(s: System, m: int, r: ReqId)
    requires Dead(s, m)
    ensures !Active(s, r)
  {
    if r in s.lock.attempts {
      Loss.DoomedNobodyHolds(s.lock, m, r);
    }
  }

  lemma DeadApplied(s: System, m: int, n: int, op: Op, now: string)
    requires Dead(s, m) && n in s.shards && Harmless(s, n, op)
    requires op.CloseTicket? && n == HomeOf(op.idIngeniero) ==> CommitMsg(n, op) !in s.commits
    ensures Dead(Applied(s, n, op, now), m)
  {
    AppliedKeepsShards(s, n, op, now);
    AppliedKeepsCommits(s, n, op, now);
    var d := Applied(s, n, op, now);
    forall r | r in d.raises ensures Started(d, r) {
      assert Started(s, r);
    }
  }

  /** Messages come and go. */
  lemma DeadMessages(s: System, d: System, m: int)
    requires Dead(s, m) && d == s.(commits := d.commits, closing := d.closing)
    requires s.closing <= d.closing <= d.booked.Keys
    requires forall x {:trigger CommitOk(d, x)} :: x in d.commits ==> CommitOk(d, x)
    ensures Dead(d, m)
  {
    forall r | r in d.raises ensures Started(d, r) {
      assert Started(s, r);
    }
    forall n | n in d.shards ensures EngineersAt(d, n) && TicketsAt(d, n) {
      assert EngineersAt(s, n) && TicketsAt(s, n);
    }
  }

  lemma DeadArrive(s: System, m: int, x: CommitMsg, now: string)
    requires Dead(s, m) && Enabled(s, Arrive(x, now))
    ensures Dead(Next(s, Arrive(x, now)), m)
  {
    var b := s.(commits := s.commits - multiset{x});
    assert CommitOk(s, x);
    forall y | y in b.commits ensures CommitOk(b, y) {
      assert CommitOk(s, y);
    }
    DeadMessages(s, b, m);
    DeadApplied(b, m, x.to, x.op, now);
  }

  lemma DeadCommitted(s: System, m: int, n: int, op: Op, now: string, applied: bool, targets: set<int>)
    requires Dead(s, m) && Peers(s, n, targets) && Harmless(s, n, op)
    requires op.InsertIngeniero? || op.CloseTicket?
    requires op.InsertIngeniero? ==> op.ingeniero.sucursal == n
    requires op.CloseTicket? ==> CloseIsDue(s, op.idTicket, op.idIngeniero) && op.idTicket in s.closing
    ensures Dead(Committed(s, n, op, now, applied, targets), m)
  {
    var b := s.(commits := s.commits + Messages(op, targets));
    forall x | x in b.commits ensures CommitOk(b, x) {
      if x in s.commits {
        assert CommitOk(s, x);
      }
      if x in Messages(op, targets) {
        assert x.op == op && x.to in targets && Messages(op, targets)[x] == 1;
      }
    }
    DeadMessages(s, b, m);
    if applied {
      assert CommitMsg(n, op) !in Messages(op, targets);
      DeadApplied(b, m, n, op, now);
    }
  }

  lemma DeadClose(s: System, m: int, ev: Event)
    requires Dead(s, m) && ev.Close? && Enabled(s, ev) && Orderly(s, ev)
    ensures Dead(Next(s, ev), m)
  {
    match ev
    case Close(node, t, e, now, applied, targets) =>
      var op := CloseTicket(t, e);
      if applied || targets != {} {
        var b := s.(closing := s.closing + {t});
        forall x | x in b.commits ensures CommitOk(b, x) {
          assert CommitOk(s, x);
        }
        FirstCloseIsDue(s, t, e);
        DeadMessages(s, b, m);
        DeadCommitted(b, m, node, op, now, applied, targets);
      } else {
        assert Messages(op, targets) == multiset{};
        assert Next(s, ev) == s;
      }
  }

  lemma DeadLockStep(s: System, m: int, ev: L.Event)
    requires Dead(s, m) && L.Enabled(s.lock, ev) && !ev.ChangeMaster?
    ensures Dead(s.(lock := L.Next(s.lock, ev)), m)
  {
    var d := s.(lock := L.Next(s.lock, ev));
    L.StepKeeps(s.lock, ev);
    L.OneMasterKeeps(s.lock, ev, m);
    Loss.DoomedStep(s.lock, ev, m);
    SameNodes(s.lock, ev);
    forall q | q in d.raises ensures Started(d, q) {
      assert Started(s, q);
      StepMoves(s.lock, ev, q);
    }
    forall n | n in d.shards ensures EngineersAt(d, n) && TicketsAt(d, n) {
      assert EngineersAt(s, n) && TicketsAt(s, n);
    }
    forall x | x in d.commits ensures CommitOk(d, x) {
      assert CommitOk(s, x);
    }
  }

  lemma DeadStep(s: System, m: int, ev: Event)
    requires Dead(s, m) && Enabled(s, ev) && Orderly(s, ev)
    ensures Dead(Next(s, ev), m)
  {
    match ev
    case LockStep(e) => DeadLockStep(s, m, e);
    case Arrive(x, now) => DeadArrive(s, m, x, now);
    case Close(_, _, _, _, _, _) => DeadClose(s, m, ev);
    case AddIngeniero(node, row, applied, targets) =>
      DeadCommitted(s, m, node, InsertIngeniero(row), "", applied, targets);
    case _ => DeadNobodyActive(s, m, ev.r);
  }

  lemma DeadIsSafe(s: System, m: int)
    requires Dead(s, m)
    ensures SafeFrom(s)
  {
    var dead := x => Dead(x, m);
    forall x, ev, y | dead(x) && StepOf(InOrder)(x, ev, y) ensures dead(y) {
      DeadStep(x, m, ev);
    }
    forall d | Reaches(InOrder, s, d) ensures NoDoubleBooking(d) {
      Paths.Kept(StepOf(InOrder), dead, s, d);
      forall n1, t1, n2, t2 |
        && Open(d, n1, t1) && Open(d, n2, t2)
        && d.shards[n1].tickets[t1].ingeniero == d.shards[n2].tickets[t2].ingeniero
        && t1 !in d.freed && t2 !in d.freed
        ensures n1 == n2 && t1 == t2
      {
        assert TicketsAt(d, n1) && TicketsAt(d, n2);
        assert Live(d, t1) && Live(d, t2) && d.booked[t1] == d.booked[t2];
      }
    }
  }

  // ---- exactly when a release is safe --------------------------------------------------------------------

  lemma ReleaseWithoutMark(s: System, m: int, r: ReqId, n: int)
    requires InRun(s, m) && Enabled(s, Finish(r)) && RaiseOf(s, r).Done? && IdsLeft(s)
    requires Open(s, n, RaiseOf(s, r).ticket) && RaiseOf(s, r).ticket !in s.freed
    requires Available(s, RaiseOf(s, r).eng) && !P.HeadFailed(s.lock, m)
    ensures !SafeFrom(Next(s, Finish(r)))
  {
    var t, e := RaiseOf(s, r).ticket, RaiseOf(s, r).eng;
    var a := Next(s, Finish(r));
    assert RaiseOk(s, r);
    ReleaseIsSound(s, m, r);
    ReleaseComesFree(s, m, r);
    assert TicketsAt(s, n) && EngineersAt(s, HomeOf(e));
    assert Stale(a, n, t, e);
    forall k | k in a.shards ensures IdLeft(a, k) {
      assert IdLeft(s, k);
      var id :| HomeOf(id) == k && Unused(s, id);
      assert Unused(a, id);
    }
    var x := StaleIsBookedAgain(a, m, n, t, e);
  }

  lemma ReleaseToFailedIsDead(s: System, m: int, r: ReqId)
    requires InRun(s, m) && Enabled(s, Finish(r)) && P.HeadFailed(s.lock, m)
    ensures Dead(Next(s, Finish(r)), m)
  {
    var d := Next(s, Finish(r));
    ReleaseIsSound(s, m, r);
    Loss.ReleaseDooms(s.lock, m, r);
    forall n | n in d.shards ensures EngineersAt(d, n) && TicketsAt(d, n) {
      assert EngineersAt(s, n) && TicketsAt(s, n);
    }
    forall x | x in d.commits ensures CommitOk(d, x) {
      assert CommitOk(s, x);
    }
  }

  /** The raise of any branch is over and its ticket open.  To release the lock now is safe, whatever orderly
      runs follow, if and only if the engineer is unavailable at his own shard already, or the lock goes to a
      request that has given up, so that nobody ever gets it again. */
  lemma ReleaseGuardIsExact(s: System, m: int, r: ReqId, n: int)
    requires InRun(s, m) && Enabled(s, Finish(r)) && RaiseOf(s, r).Done?
    requires Open(s, n, RaiseOf(s, r).ticket) && RaiseOf(s, r).ticket !in s.freed
    ensures !Available(s, RaiseOf(s, r).eng) || P.HeadFailed(s.lock, m) ==> SafeFrom(Next(s, Finish(r)))
    ensures IdsLeft(s) ==>
              (SafeFrom(Next(s, Finish(r))) <==> !Available(s, RaiseOf(s, r).eng) || P.HeadFailed(s.lock, m))
  {
    if !Available(s, RaiseOf(s, r).eng) {
      FinishKeeps(s, m, r);
      InvIsSafe(Next(s, Finish(r)), m);
    } else if P.HeadFailed(s.lock, m) {
      ReleaseToFailedIsDead(s, m, r);
      DeadIsSafe(Next(s, Finish(r)), m);
    } else if IdsLeft(s) {
      ReleaseWithoutMark(s, m, r, n);
    }
  }
}
