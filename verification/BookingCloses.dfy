/** A close takes hold at each node when its COMMIT arrives there: what the engineer's branch may do before the
    ticket's own has heard of it (CloseTicket in internal/service/ticket_service.go). */
module BookingCloses {
  import opened Common
  import opened Database
  import opened IdAllocation
  import opened LockEngine
  import opened Booking
  import opened BookingRuns
  import opened BookingLimits
  import L = LockCluster
  import Paths

  // ---- a close reaches the engineer's branch ----------------------------------------------------------

  /** Ticket t is open in its own shard, and its engineer has another open ticket. */
  ghost predicate OpenBeside(s: System, t: int) {
    && Open(s, HomeOf(t), t)
    && exists n, u {:trigger Open(s, n, u)} ::
         u != t && Open(s, n, u) && s.shards[n].tickets[u].ingeniero == s.shards[HomeOf(t)].tickets[t].ingeniero
  }

  ghost predicate NeverOpenBeside(s: System, t: int) {
    forall d {:trigger Reaches(InOrder, s, d)} :: Reaches(InOrder, s, d) ==> !OpenBeside(d, t)
  }

  predicate ClosedFor(s: System, t: int) {
    t in s.booked && !Open(s, HomeOf(t), t)
  }

  lemma AppliedStaysClosed(s: System, n: int, op: Op, now: string, t: int)
    requires n in s.shards && ClosedFor(s, t)
    requires (op.InsertTicket? || op.ReassignTicket?) ==> op.ticket.sucursal == n ==> op.ticket.id != t
    ensures ClosedFor(Applied(s, n, op, now), t)
  {
  }

  lemma StepStaysClosed(s: System, m: int, ev: Event, t: int)
    requires Inv(s, m) && Enabled(s, ev) && Orderly(s, ev) && ClosedFor(s, t)
    ensures ClosedFor(Next(s, ev), t)
  {
    match ev
    case Insert(r, id, u, dv, now, applied, targets) =>
      var n := s.lock.attempts[r].owner;
      var op := InsertTicket(Ticket(id, u, RaiseOf(s, r).eng, n, dv, ABIERTO, "", now, ""));
      AppliedStaysClosed(s.(commits := s.commits + Messages(op, targets)), n, op, now, t);
    case Note(r, folio, applied, targets) =>
      var n, op := s.lock.attempts[r].owner, UpdateTicketFolio(RaiseOf(s, r).ticket, folio);
      AppliedStaysClosed(s.(commits := s.commits + Messages(op, targets)), n, op, "", t);
    case Mark(r, applied, targets) =>
      var n, op := s.lock.attempts[r].owner, UpdateDisponible(RaiseOf(s, r).eng, 0);
      AppliedStaysClosed(s.(commits := s.commits + Messages(op, targets)), n, op, "", t);
    case Arrive(x, now) =>
      assert CommitOk(s, x);
      AppliedStaysClosed(s.(commits := s.commits - multiset{x}), x.to, x.op, now, t);
    case Close(node, u, e, now, applied, targets) =>
      var op := CloseTicket(u, e);
      var b := if (applied || targets != {}) && BookedFor(s, u, e) then s.(closing := s.closing + {u}) else s;
      AppliedStaysClosed(b.(commits := b.commits + Messages(op, targets)), node, op, now, t);
    case AddIngeniero(node, row, applied, targets) =>
      var op := InsertIngeniero(row);
      AppliedStaysClosed(s.(commits := s.commits + Messages(op, targets)), node, op, "", t);
    case _ =>
  }

  lemma {:induction false} StaysClosed(s: System, m: int, evs: seq<Event>, d: System, t: int)
    requires Inv(s, m) && Leads(InOrder, s, evs, d) && ClosedFor(s, t)
    ensures ClosedFor(d, t)
    decreases |evs|
  {
    if evs == [] {
    } else {
      var c :| StepOf(InOrder)(s, evs[0], c) && Paths.Leads(StepOf(InOrder), c, evs[1..], d);
      StepKeeps(s, m, evs[0]);
      StepStaysClosed(s, m, evs[0], t);
      StaysClosed(c, m, evs[1..], d, t);
    }
  }

  /** From s to d the branch of ticket t's engineer has applied the close. */
  ghost predicate Frees(s: System, d: System, t: int) {
    && t in s.booked && d.booked == s.booked && d.freed == s.freed + {t} && Available(d, s.booked[t])
    && d.lock == s.lock && d.raises == s.raises && d.shards.Keys == s.shards.Keys
    && (forall n :: n in s.shards ==> d.shards[n].tickets.Keys == s.shards[n].tickets.Keys)
  }

  lemma AppliedFrees(s: System, b: System, n: int, op: Op, now: string, t: int)
    requires b == s.(commits := b.commits, closing := b.closing)
    requires n in s.shards && t !in s.freed && t in Applied(b, n, op, now).freed
    requires t in s.booked && LiveOk(s, t)
    ensures Frees(s, Applied(b, n, op, now), t)
  {
  }

  lemma ArriveFrees(s: System, m: int, x: CommitMsg, now: string, t: int)
    requires Inv(s, m) && Enabled(s, Arrive(x, now)) && t !in s.freed && t in Next(s, Arrive(x, now)).freed
    ensures Frees(s, Next(s, Arrive(x, now)), t)
  {
    assert t in s.booked && LiveOk(s, t);
    AppliedFrees(s, s.(commits := s.commits - multiset{x}), x.to, x.op, now, t);
  }

  lemma CloseFrees(s: System, m: int, ev: Event, t: int)
    requires Inv(s, m) && ev.Close? && Enabled(s, ev) && t !in s.freed && t in Next(s, ev).freed
    ensures Frees(s, Next(s, ev), t)
  {
    match ev
    case Close(node, u, e, now, applied, targets) =>
      var a := if (applied || targets != {}) && BookedFor(s, u, e) then s.(closing := s.closing + {u}) else s;
      assert t in s.booked && LiveOk(s, t);
      AppliedFrees(s, a.(commits := a.commits + Messages(CloseTicket(u, e), targets)), node, CloseTicket(u, e), now, t);
  }

  lemma StepFrees(s: System, m: int, ev: Event, t: int)
    requires Inv(s, m) && Enabled(s, ev) && t !in s.freed && t in Next(s, ev).freed
    ensures Frees(s, Next(s, ev), t)
  {
    match ev
    case Arrive(x, now) => ArriveFrees(s, m, x, now, t);
    case Close(_, _, _, _, _, _) => CloseFrees(s, m, ev, t);
    case _ =>
  }

  lemma FreedIsForNobody(s: System, d: System, m: int, t: int, q: ReqId)
    requires Inv(s, m) && t !in s.freed && Frees(s, d, t) && Active(d, q)
    ensures NotFor(d, q, s.booked[t])
  {
    assert Active(s, q) && RaiseOk(s, q);
    match RaiseOf(d, q)
    case Inserted(u, _) => assert Live(s, t) && s.booked[u] == s.booked[t] ==> u == t || !Live(s, u);
    case Noted(u, _) => assert Live(s, t) && s.booked[u] == s.booked[t] ==> u == t || !Live(s, u);
    case Done(u, _) => assert Live(s, t) && s.booked[u] == s.booked[t] ==> u == t || !Live(s, u);
    case _ =>
  }

  /** The next raise, with the freed engineer still untouched. */
  lemma RaiseAfterFreeing(s: System, d: System, m: int, t: int) returns (x: System, r: ReqId)
    requires Inv(s, m) && t !in s.freed && Frees(s, d, t) && Sound(d, m) && CanBeHad(s, m)
    ensures Reaches(InOrder, d, x) && Sound(x, m) && Begins(x, r) && Untouched(d, x, s.booked[t])
  {
    forall q | Active(d, q) ensures NotFor(d, q, s.booked[t]) {
      FreedIsForNobody(s, d, m, t, q);
    }
    assert Active(s, s.lock.engines[m].holder) == Active(d, s.lock.engines[m].holder);
    x, r := FreshRaise(d, m, s.booked[t]);
  }

  lemma UnusedAfterFreeing(s: System, d: System, x: System, t: int, id: int)
    requires Frees(s, d, t) && Unused(s, id) && Untouched(d, x, s.booked[t])
    ensures id != t && Unused(x, id)
  {
  }

  lemma BookedBeside(x: System, r: ReqId, t: int, e: int, id: int)
    requires Begins(x, r) && Available(x, e) && EngineersAt(x, HomeOf(e)) && Unused(x, id) && id != t
    requires HomeOf(id) == x.lock.attempts[r].owner
    requires Open(x, HomeOf(t), t) && x.shards[HomeOf(t)].tickets[t].ingeniero == e
    ensures !NeverOpenBeside(x, t)
  {
    var k := x.lock.attempts[r].owner;
    BooksAtOnce(InOrder, x, r, e, id);
    var y := JustBooked(x, r, k, e, id);
    assert Open(y, k, id) && y.shards[k].tickets[id].ingeniero == e;
    assert OpenBeside(y, t);
  }

  lemma NeverBesideOn(s: System, d: System, t: int)
    requires NeverOpenBeside(s, t) && Reaches(InOrder, s, d)
    ensures NeverOpenBeside(d, t)
  {
    forall x | Reaches(InOrder, d, x) ensures !OpenBeside(x, t) {
      ReachesTrans(InOrder, s, d, x);
    }
  }

  lemma FreedIsBookedBeside(s: System, d: System, m: int, t: int)
    requires Inv(s, m) && t !in s.freed && Frees(s, d, t) && InRun(d, m)
    requires CanBeHad(s, m) && IdsLeft(s) && Open(d, HomeOf(t), t)
    ensures !NeverOpenBeside(d, t)
  {
    var e := s.booked[t];
    var x, r := RaiseAfterFreeing(s, d, m, t);
    assert TicketsAt(d, HomeOf(t)) && EngineersAt(d, HomeOf(e));
    assert IdLeft(s, x.lock.attempts[r].owner);
    var id :| HomeOf(id) == x.lock.attempts[r].owner && Unused(s, id);
    UnusedAfterFreeing(s, d, x, t, id);
    BookedBeside(x, r, t, e, id);
    if NeverOpenBeside(d, t) {
      NeverBesideOn(d, x, t);
    }
  }

  /** A close is applied at the branch of the ticket's engineer.  Whatever orderly runs follow, he never has
      another ticket open beside it, if and only if by then it is no longer open in its own shard; as long, that
      is, as there can be another raise at all. */
  lemma CloseAtEngineerIsExact(s: System, m: int, ev: Event, t: int)
    requires InRun(s, m) && Enabled(s, ev) && Orderly(s, ev) && t !in s.freed && t in Next(s, ev).freed
    ensures !Open(Next(s, ev), HomeOf(t), t) ==> NeverOpenBeside(Next(s, ev), t)
    ensures CanBeHad(s, m) && IdsLeft(s) ==> (NeverOpenBeside(Next(s, ev), t) <==> !Open(Next(s, ev), HomeOf(t), t))
  {
    var d := Next(s, ev);
    RunStep(s, m, ev);
    StepFrees(s, m, ev, t);
    if Open(d, HomeOf(t), t) {
      if CanBeHad(s, m) && IdsLeft(s) {
        FreedIsBookedBeside(s, d, m, t);
      }
    } else {
      forall x | Reaches(InOrder, d, x) ensures !OpenBeside(x, t) {
        var evs :| Paths.Leads(StepOf(InOrder), d, evs, x);
        StaysClosed(d, m, evs, x, t);
      }
    }
  }
}
