/** Handing a ticket over to an engineer of another branch without marking him (RedistributeTickets in
    internal/service/ticket_service.go). */
module BookingMoves {
  import opened Common
  import opened Database
  import opened IdAllocation
  import opened LockEngine
  import opened Booking
  import opened BookingRuns
  import opened BookingLimits
  import opened BookingRequests
  import L = LockCluster
  import R = Redistribution

  /** What a master gets to see of the tickets of all shards. */
  ghost predicate TicketsRead(s: System, rows: seq<Ticket>) {
    forall i :: 0 <= i < |rows| ==>
      exists n :: n in s.shards && rows[i].id in s.shards[n].tickets && s.shards[n].tickets[rows[i].id] == rows[i]
  }

  ghost predicate EngineersRead(s: System, rows: seq<Ingeniero>) {
    forall i :: 0 <= i < |rows| ==>
      exists n :: n in s.shards && rows[i].id in s.shards[n].ingenieros && s.shards[n].ingenieros[rows[i].id] == rows[i]
  }

  /** One of the proposals of a redistribution whose rows are what the shards hold. */
  ghost predicate Proposed(s: System, p: Ticket, dead: int, tickets: seq<Ticket>, engineers: seq<Ingeniero>, i: nat) {
    && TicketsRead(s, tickets) && EngineersRead(s, engineers)
    && i < R.Min(|R.TicketsOf(tickets, dead)|, |R.TakersOf(engineers, dead)|)
    && p == R.Reassigned(R.TicketsOf(tickets, dead)[i], R.TakersOf(engineers, dead)[i])
  }

  /** A proposal: an open ticket of one branch, for an available engineer of another. */
  ghost predicate Moves(s: System, p: Ticket) {
    && p.estado == ABIERTO && p.closedAt == "" && Open(s, HomeOf(p.id), p.id)
    && p.sucursal != HomeOf(p.id) && p.sucursal == HomeOf(p.ingeniero) && Available(s, p.ingeniero)
  }

  lemma ProposedMoves(s: System, m: int, p: Ticket, dead: int, tickets: seq<Ticket>, engineers: seq<Ingeniero>, i: nat)
    requires Inv(s, m) && Proposed(s, p, dead, tickets, engineers, i)
    ensures Moves(s, p)
  {
    R.ProposalIsSound(dead, tickets, engineers, i);
    R.TicketsExact(tickets, dead);
    R.TakersExact(engineers, dead);
    var t, e := R.TicketsOf(tickets, dead)[i], R.TakersOf(engineers, dead)[i];
    assert t in R.TicketsOf(tickets, dead) && e in R.TakersOf(engineers, dead);
    var a: nat :| a < |tickets| && tickets[a] == t;
    var b: nat :| b < |engineers| && engineers[b] == e;
    var n :| n in s.shards && t.id in s.shards[n].tickets && s.shards[n].tickets[t.id] == t;
    var k :| k in s.shards && e.id in s.shards[k].ingenieros && s.shards[k].ingenieros[e.id] == e;
    assert TicketsAt(s, n) && EngineersAt(s, k);
  }

  /** The row has got to its new branch; nothing else has changed but the messages. */
  ghost predicate Moved(s: System, d: System, p: Ticket) {
    && p.sucursal in s.shards
    && d == s.(shards := s.shards[p.sucursal := Apply(ReassignTicket(p), "", s.shards[p.sucursal])],
               commits := d.commits)
  }

  lemma MovesHere(s: System, p: Ticket, targets: set<int>)
    requires Peers(s, p.sucursal, targets)
    ensures Moved(s, Next(s, Reassign(p.sucursal, p, true, targets)), p)
    ensures s.commits <= Next(s, Reassign(p.sucursal, p, true, targets)).commits
  {
  }

  lemma MoveTravels(s: System, node: int, p: Ticket, applied: bool, targets: set<int>)
    requires Peers(s, node, targets) && node != p.sucursal && p.sucursal in targets
    ensures var d, msg := Next(s, Reassign(node, p, applied, targets)), CommitMsg(p.sucursal, ReassignTicket(p));
            d == s.(commits := d.commits) && msg in d.commits && s.commits <= d.commits
  {
    var op := ReassignTicket(p);
    assert CommitMsg(p.sucursal, op) in Messages(op, targets);
    assert s.shards[node := s.shards[node]] == s.shards;
  }

  lemma MoveLands(s: System, d: System, p: Ticket)
    requires p.sucursal in s.shards && d == s.(commits := d.commits)
    requires CommitMsg(p.sucursal, ReassignTicket(p)) in d.commits
    ensures var ev := Arrive(CommitMsg(p.sucursal, ReassignTicket(p)), "");
            && Enabled(d, ev) && Orderly(d, ev) && Moved(s, Next(d, ev), p)
            && forall y: CommitMsg :: y.op.CloseTicket? && y in d.commits ==> y in Next(d, ev).commits
  {
  }

  lemma MoveArrives(s: System, d: System, node: int, p: Ticket, applied: bool, targets: set<int>) returns (x: System)
    requires p.sucursal in s.shards && Peers(s, node, targets)
    requires GetsTo(node, applied, targets, p.sucursal) && d == Next(s, Reassign(node, p, applied, targets))
    ensures Reaches(InOrder, d, x) && Moved(s, x, p)
    ensures forall y: CommitMsg :: y.op.CloseTicket? && y in s.commits ==> y in x.commits
  {
    if node == p.sucursal {
      MovesHere(s, p, targets);
      ReachesSelf(InOrder, d);
      x := d;
    } else {
      var ev := Arrive(CommitMsg(p.sucursal, ReassignTicket(p)), "");
      MoveTravels(s, node, p, applied, targets);
      MoveLands(s, d, p);
      OneStep(InOrder, d, ev);
      x := Next(d, ev);
    }
  }

  /** Both the old and the new branch have the ticket now, and its new engineer still looks available. */
  lemma MovedIsStale(s: System, x: System, m: int, p: Ticket)
    requires Inv(s, m) && Moves(s, p) && Moved(s, x, p) && p.id !in s.freed && IdsLeft(s)
    ensures Stale(x, p.sucursal, p.id, p.ingeniero) && IdsLeft(x) && x.freed == s.freed
    ensures forall n, u :: Open(s, n, u) ==> Open(x, n, u) && x.shards[n].tickets[u] == s.shards[n].tickets[u]
  {
    assert TicketsAt(s, p.sucursal) && TicketsAt(s, HomeOf(p.id)) && EngineersAt(s, p.sucursal);
    assert EngineersAt(x, p.sucursal);
    forall k | k in x.shards ensures IdLeft(x, k) {
      assert IdLeft(s, k);
      var id :| HomeOf(id) == k && Unused(s, id);
      assert Unused(x, id);
    }
  }

  lemma MovedCarriesOver(s: System, x: System, m: int, p: Ticket)
    requires Inv(s, m) && Sound(s, m) && Lively(s, m) && Moved(s, x, p) && Moves(s, p) && |s.booked| + 1 < ID_SPAN
    ensures Sound(x, m) && Lively(x, m) && Roomy(x, 1)
  {
    LeftAsBefore(s, x, m);
    InRunIsRoomy(s, m);
    assert TicketsAt(s, HomeOf(p.id));
  }

  /** In the hands of a raise that has booked him, the new engineer has two open tickets at once; if that
      raise's ticket is closed already, he has them once its close has reached his branch. */
  lemma MovedBesideRaise(s: System, x: System, m: int, p: Ticket, q: ReqId)
    requires InRun(s, m) && Lively(s, m) && |s.booked| + 1 < ID_SPAN
    requires Moves(s, p) && Moved(s, x, p) && p.id !in s.freed && IdsLeft(s)
    requires (forall u {:trigger Stuck(s, u, p.ingeniero)} :: !Stuck(s, u, p.ingeniero))
    requires (forall y: CommitMsg :: y.op.CloseTicket? && y in s.commits ==> y in x.commits)
    requires Active(x, q) && !NotFor(x, q, p.ingeniero)
    ensures !SafeFrom(x)
  {
    var u, e := RaiseOf(s, q).ticket, p.ingeniero;
    assert Active(s, q) && RaiseOk(s, q);
    assert Has(s, e, u) && !Stuck(s, u, e);
    MovedIsStale(s, x, m, p);
    if Open(s, HomeOf(u), u) {
      assert TicketsAt(s, HomeOf(u));
      TwiceIsDouble(x, e, HomeOf(u), u, p.sucursal, p.id);
      ReachesSelf(InOrder, x);
    } else {
      MovedCarriesOver(s, x, m, p);
      assert CloseOf(u, e) in x.commits;
      BookedThenFreed(x, m, q, p.sucursal, p.id, e, u);
    }
  }

  /** Every proposal of RedistributeTickets that gets to its new branch is unsafe: the engineer who takes the
      ticket is not marked, so the next raise books him as well. */
  lemma EveryReassignmentIsUnsafe(s: System, m: int, node: int, applied: bool, targets: set<int>,
                                  p: Ticket, dead: int, tickets: seq<Ticket>, engineers: seq<Ingeniero>, i: nat)
    requires InRun(s, m) && Lively(s, m) && |s.booked| + 1 < ID_SPAN
    requires forall u {:trigger Stuck(s, u, p.ingeniero)} :: !Stuck(s, u, p.ingeniero)
    requires Proposed(s, p, dead, tickets, engineers, i) && p.id !in s.freed
    requires Enabled(s, Reassign(node, p, applied, targets))
    requires GetsTo(node, applied, targets, p.sucursal)
    ensures !SafeFrom(Next(s, Reassign(node, p, applied, targets)))
  {
    ProposedMoves(s, m, p, dead, tickets, engineers, i);
    var d := Next(s, Reassign(node, p, applied, targets));
    var x := MoveArrives(s, d, node, p, applied, targets);
    InRunIsRoomy(s, m);
    RoomLeavesIds(s);
    MovedIsStale(s, x, m, p);
    MovedCarriesOver(s, x, m, p);
    if q :| Active(x, q) && !NotFor(x, q, p.ingeniero) {
      MovedBesideRaise(s, x, m, p, q);
    } else {
      StaleIsUnsafe(x, m, p.sucursal, p.id, p.ingeniero);
    }
    NotSafeFromFurther(d, x);
  }
}
