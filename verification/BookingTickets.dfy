/** What is in the row of a raised ticket, from the request to the end of any run (raiseTicket and CloseTicket
    in internal/service/ticket_service.go). */
module BookingTickets {
  import opened Common
  import opened Database
  import opened IdAllocation
  import opened LockEngine
  import opened Booking
  import L = LockCluster

  // ---- single steps ------------------------------------------------------------------------------------

  /** One COMMIT of the operation has gone out to each of the targets, and nothing else. */
  ghost predicate Sends(s: System, d: System, op: Op, targets: set<int>) {
    forall m :: d.commits[m] == s.commits[m] + if m.op == op && m.to in targets then 1 else 0
  }

  lemma MessagesAreSent(op: Op, targets: set<int>, m: CommitMsg)
    ensures Messages(op, targets)[m] == if m.op == op && m.to in targets then 1 else 0
  {
  }

  /** The shards are as they were but for one table of node n. */
  ghost predicate OnlyTickets(s: System, d: System, n: int) {
    && n in s.shards && n in d.shards
    && d.shards == s.shards[n := s.shards[n].(tickets := d.shards[n].tickets)]
  }

  ghost predicate OnlyEngineers(s: System, d: System, n: int) {
    && n in s.shards && n in d.shards
    && d.shards == s.shards[n := s.shards[n].(ingenieros := d.shards[n].ingenieros)]
  }

  /** Once the insert is applied the raising branch has the ticket: of the user and the device of the request,
      for the engineer chosen, of this branch, open, created at the given time.  The ticket counts as booked
      for that engineer and the raise goes on with it. */
  lemma InsertStoresRequest(s: System, r: ReqId, id: int, u: int, dv: int, now: string, targets: set<int>)
    requires Enabled(s, Insert(r, id, u, dv, now, true, targets))
    requires id !in s.shards[s.lock.attempts[r].owner].tickets
    ensures var n, e := s.lock.attempts[r].owner, RaiseOf(s, r).eng;
            var d := Next(s, Insert(r, id, u, dv, now, true, targets));
            && OnlyTickets(s, d, n) && Grows(s.shards[n].tickets, d.shards[n].tickets, id)
            && (var row := d.shards[n].tickets[id];
                && row.id == id && row.usuario == u && row.dispositivo == dv && row.ingeniero == e
                && row.sucursal == n && row.estado == ABIERTO && row.createdAt == now
                && row.folio == "" && row.closedAt == "")
            && d.booked == s.booked[id := e] && d.raises == s.raises[r := Inserted(id, e)]
            && d.lock == s.lock && d.closing == s.closing && d.freed == s.freed
            && forall m :: d.commits[m] == s.commits[m] + (if m.to in targets && m.op.InsertTicket?
                 && m.op.ticket == d.shards[n].tickets[id] then 1 else 0)
  {
    var n, e := s.lock.attempts[r].owner, RaiseOf(s, r).eng;
    var d := Next(s, Insert(r, id, u, dv, now, true, targets));
    var row := Ticket(id, u, e, n, dv, ABIERTO, "", now, "");
    assert d.shards[n].tickets == s.shards[n].tickets[id := row];
    forall m ensures d.commits[m] == s.commits[m] + (if m.to in targets && m.op.InsertTicket?
                       && m.op.ticket == d.shards[n].tickets[id] then 1 else 0) {
      MessagesAreSent(InsertTicket(row), targets, m);
    }
  }

  /** An insert that is not applied here leaves everything but the messages as it was, and the raise may try
      again. */
  lemma FailedInsertOnlySends(s: System, r: ReqId, id: int, u: int, dv: int, now: string, targets: set<int>)
    requires Enabled(s, Insert(r, id, u, dv, now, false, targets))
    ensures var n, e := s.lock.attempts[r].owner, RaiseOf(s, r).eng;
            var d := Next(s, Insert(r, id, u, dv, now, false, targets));
            d == s.(commits := d.commits)
            && Sends(s, d, InsertTicket(Ticket(id, u, e, n, dv, ABIERTO, "", now, "")), targets)
  {
    var n, e := s.lock.attempts[r].owner, RaiseOf(s, r).eng;
    var op := InsertTicket(Ticket(id, u, e, n, dv, ABIERTO, "", now, ""));
    forall m ensures Messages(op, targets)[m] == if m.op == op && m.to in targets then 1 else 0 {
      MessagesAreSent(op, targets, m);
    }
  }

  /** The folio goes to the raise's own ticket. */
  lemma NoteStoresFolio(s: System, r: ReqId, folio: string, applied: bool, targets: set<int>)
    requires Enabled(s, Note(r, folio, applied, targets))
    ensures var n, t := s.lock.attempts[r].owner, RaiseOf(s, r).ticket;
            var d := Next(s, Note(r, folio, applied, targets));
            && OnlyTickets(s, d, n) && Differs(s.shards[n].tickets, d.shards[n].tickets, t)
            && (t in s.shards[n].tickets ==>
                  && d.shards[n].tickets[t].folio == (if applied then folio else s.shards[n].tickets[t].folio)
                  && d.shards[n].tickets[t].(folio := "") == s.shards[n].tickets[t].(folio := ""))
            && d.raises == s.raises[r := Noted(t, RaiseOf(s, r).eng)]
            && d.lock == s.lock && d.booked == s.booked && d.closing == s.closing && d.freed == s.freed
            && Sends(s, d, UpdateTicketFolio(t, folio), targets)
  {
    var n, op := s.lock.attempts[r].owner, UpdateTicketFolio(RaiseOf(s, r).ticket, folio);
    UpdatesChangeOneRow(op, "", s.shards[n]);
    forall m ensures Messages(op, targets)[m] == if m.op == op && m.to in targets then 1 else 0 {
      MessagesAreSent(op, targets, m);
    }
    SameShard(s, n);
  }

  /** The mark goes to the raise's own engineer. */
  lemma MarkStoresZero(s: System, r: ReqId, applied: bool, targets: set<int>)
    requires Enabled(s, Mark(r, applied, targets))
    ensures var n, e := s.lock.attempts[r].owner, RaiseOf(s, r).eng;
            var d := Next(s, Mark(r, applied, targets));
            && OnlyEngineers(s, d, n) && Differs(s.shards[n].ingenieros, d.shards[n].ingenieros, e)
            && (e in s.shards[n].ingenieros ==>
                  var row, was := d.shards[n].ingenieros[e], s.shards[n].ingenieros[e];
                  && row.disponible == (if applied then 0 else was.disponible)
                  && row.(disponible := 0) == was.(disponible := 0))
            && d.raises == s.raises[r := Done(RaiseOf(s, r).ticket, e)]
            && d.lock == s.lock && d.booked == s.booked && d.closing == s.closing && d.freed == s.freed
            && Sends(s, d, UpdateDisponible(e, 0), targets)
  {
    var n, op := s.lock.attempts[r].owner, UpdateDisponible(RaiseOf(s, r).eng, 0);
    UpdatesChangeOneRow(op, "", s.shards[n]);
    forall m ensures Messages(op, targets)[m] == if m.op == op && m.to in targets then 1 else 0 {
      MessagesAreSent(op, targets, m);
    }
    SameShard(s, n);
  }

  lemma SameShard(s: System, n: int)
    requires n in s.shards
    ensures s.shards[n := s.shards[n]] == s.shards
  {
  }

  /** A close that is applied where it is asked for closes the ticket there and frees the engineer there; it goes
      out to the targets, and under its ticket's own engineer it is on record as a close of the ticket unless it
      has reached nobody. */
  lemma CloseStoresClosed(s: System, n: int, t: int, e: int, now: string, applied: bool, targets: set<int>)
    requires Enabled(s, Close(n, t, e, now, applied, targets))
    ensures var d := Next(s, Close(n, t, e, now, applied, targets));
            && d.shards == s.shards[n := d.shards[n]]
            && d.shards[n].usuarios == s.shards[n].usuarios && d.shards[n].dispositivos == s.shards[n].dispositivos
            && Differs(s.shards[n].tickets, d.shards[n].tickets, t)
            && Differs(s.shards[n].ingenieros, d.shards[n].ingenieros, e)
            && (!applied ==> d.shards == s.shards)
            && (applied && t in s.shards[n].tickets ==>
                  d.shards[n].tickets[t] == s.shards[n].tickets[t].(estado := CERRADO, closedAt := now))
            && (applied && e in s.shards[n].ingenieros ==>
                  d.shards[n].ingenieros[e] == s.shards[n].ingenieros[e].(disponible := 1))
            && d.lock == s.lock && d.raises == s.raises && d.booked == s.booked
            && (forall x :: x in d.closing <==>
                  x in s.closing || (x == t && BookedFor(s, t, e) && (applied || targets != {})))
            && (forall x :: x in d.freed <==>
                  x in s.freed || (x == t && BookedFor(s, t, e) && applied && n == HomeOf(e)))
            && Sends(s, d, CloseTicket(t, e), targets)
  {
    var op := CloseTicket(t, e);
    UpdatesChangeOneRow(op, now, s.shards[n]);
    forall m ensures Messages(op, targets)[m] == if m.op == op && m.to in targets then 1 else 0 {
      MessagesAreSent(op, targets, m);
    }
    SameShard(s, n);
  }

  /** A COMMIT that arrives is taken off the network and applied to the shard of its receiver, nowhere else. */
  lemma ArrivalIsApplied(s: System, m: CommitMsg, now: string)
    requires Enabled(s, Arrive(m, now))
    ensures var d := Next(s, Arrive(m, now));
            && d.shards == s.shards[m.to := ApplyAt(m.to, m.op, now, s.shards[m.to])]
            && d.commits == s.commits - multiset{m}
            && d.lock == s.lock && d.raises == s.raises && d.booked == s.booked && d.closing == s.closing
            && (forall x :: x in d.freed <==>
                  || x in s.freed
                  || (m.op.CloseTicket? && x == m.op.idTicket && BookedFor(s, x, m.op.idIngeniero)
                      && m.to == HomeOf(m.op.idIngeniero)))
  {
  }

  /** What a node reads, chooses, abandons or gives back touches no shard, no ticket and no message. */
  lemma OtherStepsTouchNoShard(s: System, ev: Event)
    requires Enabled(s, ev) && (ev.LockStep? || ev.Read? || ev.Choose? || ev.Abandon? || ev.Finish?)
    ensures var d := Next(s, ev);
            && d == s.(lock := d.lock, raises := d.raises)
            && (ev.LockStep? ==> d.raises == s.raises && d.lock == L.Next(s.lock, ev.ev))
            && (ev.Finish? ==> d.raises == s.raises && d.lock == L.Next(s.lock, L.LetGo(ev.r)))
            && (ev.Read? || ev.Choose? || ev.Abandon? ==>
                  d.lock == s.lock && ev.r in d.raises && d.raises == s.raises[ev.r := d.raises[ev.r]])
  {
  }

  /** The registration of an engineer and a reassignment commit the row that they are about. */
  lemma ProposedRowIsCommitted(s: System, ev: Event)
    requires Enabled(s, ev) && (ev.AddIngeniero? || ev.Reassign?)
    ensures var d := Next(s, ev);
            var op := if ev.AddIngeniero? then InsertIngeniero(ev.row) else ReassignTicket(ev.moved);
            && d == s.(shards := d.shards, commits := d.commits) && Sends(s, d, op, ev.targets)
            && d.shards == s.shards[ev.node := if ev.applied then ApplyAt(ev.node, op, "", s.shards[ev.node])
                                               else s.shards[ev.node]]
  {
    var op := if ev.AddIngeniero? then InsertIngeniero(ev.row) else ReassignTicket(ev.moved);
    forall m ensures Messages(op, ev.targets)[m] == if m.op == op && m.to in ev.targets then 1 else 0 {
      MessagesAreSent(op, ev.targets, m);
    }
    SameShard(s, ev.node);
  }

  /** A request that has not inserted anything can be abandoned, and can give the lock back then. */
  lemma AbandonedGivesLockBack(s: System, r: ReqId)
    requires Active(s, r) && (RaiseOf(s, r).Reading? || RaiseOf(s, r).Chosen?) && L.Enabled(s.lock, L.LetGo(r))
    ensures Enabled(s, Abandon(r)) && RaiseOf(Next(s, Abandon(r)), r) == Nothing
    ensures Enabled(Next(s, Abandon(r)), Finish(r))
  {
  }

  /** A branch can register an engineer at any time; one that is new to it is available there. */
  lemma BranchCanHire(s: System, n: int, row: Ingeniero, targets: set<int>)
    requires Peers(s, n, targets) && row.sucursal == n && HomeOf(row.id) == n
    ensures Enabled(s, AddIngeniero(n, row, true, targets))
    ensures row.id !in s.shards[n].ingenieros ==> Available(Next(s, AddIngeniero(n, row, true, targets)), row.id)
  {
    if row.id !in s.shards[n].ingenieros {
      InsertsStoreWhatTheyCarry(InsertIngeniero(row), "", s.shards[n]);
    }
  }

  // ---- whom a raise books --------------------------------------------------------------------------------

  /** The rows that a request has read in a run, in order. */
  function RowsRead(evs: seq<Event>, r: ReqId): seq<Ingeniero>
    decreases |evs|
  {
    if evs == [] then []
    else
      var last := evs[|evs| - 1];
      RowsRead(evs[..|evs| - 1], r) + if last.Read? && last.r == r then last.rows else []
  }

  ghost predicate ReadOk(s: System, past: seq<Event>, r: ReqId) {
    match RaiseOf(s, r)
    case Reading(seen) => seen == RowsRead(past, r)
    case Chosen(e) => exists k: nat :: IsFirstAvailable(RowsRead(past, r), k) && e == RowsRead(past, r)[k].id
    case _ => true
  }

  lemma ReadAddsRows(s: System, r: ReqId, node: int, rows: seq<Ingeniero>)
    requires Enabled(s, Read(r, node, rows))
    ensures RaiseOf(s, r).Reading? && RaiseOf(Next(s, Read(r, node, rows)), r) == Reading(RaiseOf(s, r).seen + rows)
  {
  }

  /** A request takes the first engineer called available in what it has seen, and nobody if there is none. */
  lemma ChooseTakesFirst(s: System, r: ReqId)
    requires Enabled(s, Choose(r))
    ensures RaiseOf(s, r).Reading?
    ensures var rows, at := RaiseOf(s, r).seen, RaiseOf(Next(s, Choose(r)), r);
            || (at == Nothing && forall i :: 0 <= i < |rows| ==> rows[i].disponible != 1)
            || (at.Chosen? && exists k: nat :: IsFirstAvailable(rows, k) && at.eng == rows[k].id)
  {
    var rows := RaiseOf(s, r).seen;
    var found := FirstAvailable(rows);
    if found.Some? {
      var k: nat :| IsFirstAvailable(rows, k) && found.value == rows[k];
      assert RaiseOf(Next(s, Choose(r)), r) == Chosen(rows[k].id);
    } else {
      assert RaiseOf(Next(s, Choose(r)), r) == Nothing;
    }
  }

  /** Every other step leaves a request where it was, or takes one that has chosen or read on to inserting or
      to nothing. */
  lemma OtherStepsReadNothing(s: System, ev: Event, r: ReqId)
    requires Enabled(s, ev) && !(ev.Read? && ev.r == r) && !(ev.Choose? && ev.r == r)
    ensures var at := RaiseOf(Next(s, ev), r);
            at == RaiseOf(s, r) || at.Inserted? || at.Noted? || at.Done? || at.Nothing?
  {
  }

  lemma RowsReadMore(past: seq<Event>, ev: Event, r: ReqId)
    ensures RowsRead(past + [ev], r) == RowsRead(past, r) + if ev.Read? && ev.r == r then ev.rows else []
  {
    assert (past + [ev])[..|past|] == past;
  }

  lemma ReadStep(s: System, ev: Event, past: seq<Event>, r: ReqId)
    requires Enabled(s, ev) && ReadOk(s, past, r)
    ensures ReadOk(Next(s, ev), past + [ev], r)
  {
    RowsReadMore(past, ev, r);
    if ev.Read? && ev.r == r {
      ReadAddsRows(s, r, ev.node, ev.rows);
    } else {
      assert RowsRead(past + [ev], r) == RowsRead(past, r);
      if ev.Choose? && ev.r == r {
        ChooseTakesFirst(s, r);
      } else {
        OtherStepsReadNothing(s, ev, r);
      }
    }
  }

  lemma {:induction false} ReadAlong(s: System, evs: seq<Event>, past: seq<Event>, r: ReqId)
    requires Legal(s, evs) && ReadOk(s, past, r)
    ensures ReadOk(Run(s, evs), past + evs, r)
    decreases |evs|
  {
    if evs == [] {
      assert past + evs == past;
    } else {
      var ev, rest := evs[0], evs[1..];
      ReadStep(s, ev, past, r);
      ReadAlong(Next(s, ev), rest, past + [ev], r);
      OneOn(past, evs);
    }
  }

  /** In every run, whoever a request has chosen is the first engineer called available in the rows that it
      has read, in the order in which it has read them. */
  lemma ChosenIsFirstAvailable(start: System, m: int, evs: seq<Event>, r: ReqId)
    requires Init(start, m) && Legal(start, evs) && RaiseOf(Run(start, evs), r).Chosen?
    ensures exists k: nat :: IsFirstAvailable(RowsRead(evs, r), k)
                             && RaiseOf(Run(start, evs), r).eng == RowsRead(evs, r)[k].id
  {
    ReadAlong(start, evs, [], r);
    assert [] + evs == evs;
  }

  predicate HasTicket(at: Raise, t: int, e: int) {
    (at.Inserted? || at.Noted? || at.Done?) && at.ticket == t && at.eng == e
  }

  lemma TicketStep(s: System, ev: Event, r: ReqId, t: int, e: int)
    requires Enabled(s, ev) && HasTicket(RaiseOf(s, r), t, e)
    ensures HasTicket(RaiseOf(Next(s, ev), r), t, e)
  {
  }

  /** A request that has inserted a ticket stays with that ticket and that engineer. */
  lemma {:induction false} RaiseStaysOnTicket(s: System, evs: seq<Event>, r: ReqId, t: int, e: int)
    requires Legal(s, evs) && HasTicket(RaiseOf(s, r), t, e)
    ensures HasTicket(RaiseOf(Run(s, evs), r), t, e)
    decreases |evs|
  {
    if evs == [] {
    } else {
      TicketStep(s, evs[0], r, t, e);
      RaiseStaysOnTicket(Next(s, evs[0]), evs[1..], r, t, e);
    }
  }

  // ---- the row through any run without reassignments ---------------------------------------------------------

  predicate NoReassignment(evs: seq<Event>) {
    forall i :: 0 <= i < |evs| ==> !evs[i].Reassign?
  }

  ghost predicate InsertsGoElsewhere(s: System, m: CommitMsg) {
    && !m.op.ReassignTicket?
    && (m.op.InsertTicket? ==> m.op.ticket.sucursal != m.to)
  }

  /** Every ticket in a shard has been booked by a raise of that branch, and no COMMIT under way brings one. */
  ghost predicate RowsOk(s: System) {
    && (forall n {:trigger TicketsAt(s, n)} :: n in s.shards ==> TicketsAt(s, n))
    && (forall m {:trigger InsertsGoElsewhere(s, m)} :: m in s.commits ==> InsertsGoElsewhere(s, m))
  }

  lemma CommittedRows(s: System, n: int, op: Op, now: string, applied: bool, targets: set<int>)
    requires RowsOk(s) && Peers(s, n, targets) && !op.ReassignTicket?
    requires op.InsertTicket? ==> op.ticket.sucursal == n && !applied
    ensures RowsOk(Committed(s, n, op, now, applied, targets))
  {
    var d := Committed(s, n, op, now, applied, targets);
    forall k | k in d.shards ensures TicketsAt(d, k) {
      assert TicketsAt(s, k);
    }
    forall m | m in d.commits ensures InsertsGoElsewhere(d, m) {
      MessagesAreSent(op, targets, m);
      assert m in s.commits ==> InsertsGoElsewhere(s, m);
    }
  }

  lemma InsertedRows(s: System, r: ReqId, id: int, u: int, dv: int, now: string, targets: set<int>)
    requires RowsOk(s) && Enabled(s, Insert(r, id, u, dv, now, true, targets))
    ensures id !in s.shards[s.lock.attempts[r].owner].tickets
    ensures RowsOk(Next(s, Insert(r, id, u, dv, now, true, targets)))
  {
    var n := s.lock.attempts[r].owner;
    var d := Next(s, Insert(r, id, u, dv, now, true, targets));
    assert TicketsAt(s, n);
    InsertStoresRequest(s, r, id, u, dv, now, targets);
    forall k | k in d.shards ensures TicketsAt(d, k) {
      assert TicketsAt(s, k);
    }
    forall m | m in d.commits ensures InsertsGoElsewhere(d, m) {
      assert m in s.commits ==> InsertsGoElsewhere(s, m);
    }
  }

  lemma ArrivedRows(s: System, m: CommitMsg, now: string)
    requires RowsOk(s) && Enabled(s, Arrive(m, now))
    ensures RowsOk(Next(s, Arrive(m, now)))
  {
    var d := Next(s, Arrive(m, now));
    assert InsertsGoElsewhere(s, m);
    ArrivalIsApplied(s, m, now);
    forall k | k in d.shards ensures TicketsAt(d, k) {
      assert TicketsAt(s, k);
    }
    forall x | x in d.commits ensures InsertsGoElsewhere(d, x) {
      assert InsertsGoElsewhere(s, x);
    }
  }

  lemma SameRows(s: System, d: System)
    requires RowsOk(s) && d.shards == s.shards && d.commits == s.commits && d.booked == s.booked
    ensures RowsOk(d)
  {
    forall k | k in d.shards ensures TicketsAt(d, k) {
      assert TicketsAt(s, k);
    }
    forall x | x in d.commits ensures InsertsGoElsewhere(d, x) {
      assert InsertsGoElsewhere(s, x);
    }
  }

  lemma RowsStep(s: System, ev: Event)
    requires RowsOk(s) && Enabled(s, ev) && !ev.Reassign?
    ensures RowsOk(Next(s, ev))
  {
    match ev
    case Insert(r, id, u, dv, now, applied, targets) =>
      if applied {
        InsertedRows(s, r, id, u, dv, now, targets);
      } else {
        var n, e := s.lock.attempts[r].owner, RaiseOf(s, r).eng;
        CommittedRows(s, n, InsertTicket(Ticket(id, u, e, n, dv, ABIERTO, "", now, "")), now, false, targets);
      }
    case Note(r, folio, applied, targets) =>
      var op := UpdateTicketFolio(RaiseOf(s, r).ticket, folio);
      CommittedRows(s, s.lock.attempts[r].owner, op, "", applied, targets);
      SameRows(Committed(s, s.lock.attempts[r].owner, op, "", applied, targets), Next(s, ev));
    case Mark(r, applied, targets) =>
      var op := UpdateDisponible(RaiseOf(s, r).eng, 0);
      CommittedRows(s, s.lock.attempts[r].owner, op, "", applied, targets);
      SameRows(Committed(s, s.lock.attempts[r].owner, op, "", applied, targets), Next(s, ev));
    case Close(n, t, e, now, applied, targets) => ClosedRows(s, n, t, e, now, applied, targets);
    case AddIngeniero(n, row, applied, targets) => CommittedRows(s, n, InsertIngeniero(row), "", applied, targets);
    case Arrive(m, now) => ArrivedRows(s, m, now);
    case LockStep(_) => SameRows(s, Next(s, ev));
    case Read(_, _, _) => SameRows(s, Next(s, ev));
    case Choose(_) => SameRows(s, Next(s, ev));
    case Abandon(_) => SameRows(s, Next(s, ev));
    case Finish(_) => SameRows(s, Next(s, ev));
  }

  lemma ClosedRows(s: System, n: int, t: int, e: int, now: string, applied: bool, targets: set<int>)
    requires RowsOk(s) && Enabled(s, Close(n, t, e, now, applied, targets))
    ensures RowsOk(Next(s, Close(n, t, e, now, applied, targets)))
  {
    var d := Next(s, Close(n, t, e, now, applied, targets));
    CommittedRows(s, n, CloseTicket(t, e), now, applied, targets);
    CloseStoresClosed(s, n, t, e, now, applied, targets);
    SameRows(Committed(s, n, CloseTicket(t, e), now, applied, targets), d);
  }

  lemma {:induction false} RowsAlong(s: System, evs: seq<Event>)
    requires RowsOk(s) && Legal(s, evs) && NoReassignment(evs)
    ensures RowsOk(Run(s, evs))
    decreases |evs|
  {
    if evs == [] {
    } else {
      RowsStep(s, evs[0]);
      RowsAlong(Next(s, evs[0]), evs[1..]);
    }
  }

  // ---- what becomes of a ticket ------------------------------------------------------------------------------

  /** The event applies a close of the ticket at node n. */
  predicate ClosesAt(ev: Event, n: int, t: int) {
    || (ev.Close? && ev.node == n && ev.ticket == t && ev.applied)
    || (ev.Arrive? && ev.m.to == n && ev.m.op.CloseTicket? && ev.m.op.idTicket == t)
  }

  /** The folio that the event gives the ticket at node n. */
  function FolioAt(s: System, ev: Event, n: int, t: int): Option<string>
    requires Enabled(s, ev)
  {
    if ev.Note? && ev.applied && s.lock.attempts[ev.r].owner == n && RaiseOf(s, ev.r).ticket == t then Some(ev.folio)
    else if ev.Arrive? && ev.m.to == n && ev.m.op.UpdateTicketFolio? && ev.m.op.idTicket == t then Some(ev.m.op.folio)
    else None
  }

  /** The row with only its folio, state and closing time changed as told. */
  function Changed(row: Ticket, closed: Option<string>, folio: Option<string>): Ticket {
    var noted := if folio.Some? then row.(folio := folio.value) else row;
    if closed.Some? then noted.(estado := CERRADO, closedAt := closed.value) else noted
  }

  function ClosedAt(ev: Event, n: int, t: int): Option<string> {
    if ClosesAt(ev, n, t) then Some(ev.now) else None
  }

  lemma ArrivalChangesRow(s: System, m: CommitMsg, now: string, n: int, t: int)
    requires RowsOk(s) && Enabled(s, Arrive(m, now)) && n in s.shards && t in s.shards[n].tickets
    ensures var d, ev := Next(s, Arrive(m, now)), Arrive(m, now);
            && n in d.shards && t in d.shards[n].tickets
            && d.shards[n].tickets[t] == Changed(s.shards[n].tickets[t], ClosedAt(ev, n, t), FolioAt(s, ev, n, t))
  {
    assert InsertsGoElsewhere(s, m);
    ArrivalIsApplied(s, m, now);
    if m.to == n && m.op.CloseTicket? {
      UpdatesChangeOneRow(m.op, now, s.shards[n]);
    }
  }

  ghost predicate RowChanges(s: System, ev: Event, n: int, t: int)
    requires Enabled(s, ev) && n in s.shards && t in s.shards[n].tickets
  {
    var d := Next(s, ev);
    && n in d.shards && t in d.shards[n].tickets
    && d.shards[n].tickets[t] == Changed(s.shards[n].tickets[t], ClosedAt(ev, n, t), FolioAt(s, ev, n, t))
  }

  lemma InsertChangesNoRow(s: System, r: ReqId, id: int, u: int, dv: int, now: string, applied: bool, targets: set<int>,
                           n: int, t: int)
    requires RowsOk(s) && n in s.shards && t in s.shards[n].tickets
    requires Enabled(s, Insert(r, id, u, dv, now, applied, targets))
    ensures RowChanges(s, Insert(r, id, u, dv, now, applied, targets), n, t)
  {
    if applied {
      InsertedRows(s, r, id, u, dv, now, targets);
      InsertStoresRequest(s, r, id, u, dv, now, targets);
    } else {
      FailedInsertOnlySends(s, r, id, u, dv, now, targets);
    }
  }

  lemma NoteChangesRow(s: System, r: ReqId, folio: string, applied: bool, targets: set<int>, n: int, t: int)
    requires n in s.shards && t in s.shards[n].tickets && Enabled(s, Note(r, folio, applied, targets))
    ensures RowChanges(s, Note(r, folio, applied, targets), n, t)
  {
    NoteStoresFolio(s, r, folio, applied, targets);
  }

  lemma MarkChangesNoRow(s: System, r: ReqId, applied: bool, targets: set<int>, n: int, t: int)
    requires n in s.shards && t in s.shards[n].tickets && Enabled(s, Mark(r, applied, targets))
    ensures RowChanges(s, Mark(r, applied, targets), n, t)
  {
    MarkStoresZero(s, r, applied, targets);
  }

  lemma CloseChangesRow(s: System, k: int, x: int, e: int, now: string, applied: bool, targets: set<int>,
                        n: int, t: int)
    requires n in s.shards && t in s.shards[n].tickets && Enabled(s, Close(k, x, e, now, applied, targets))
    ensures RowChanges(s, Close(k, x, e, now, applied, targets), n, t)
  {
    CloseStoresClosed(s, k, x, e, now, applied, targets);
  }

  lemma OthersChangeNoRow(s: System, ev: Event, n: int, t: int)
    requires Enabled(s, ev) && n in s.shards && t in s.shards[n].tickets
    requires ev.LockStep? || ev.Read? || ev.Choose? || ev.Abandon? || ev.Finish? || ev.AddIngeniero?
    ensures RowChanges(s, ev, n, t)
  {
    if ev.AddIngeniero? {
      ProposedRowIsCommitted(s, ev);
    } else {
      OtherStepsTouchNoShard(s, ev);
    }
  }

  /** A step closes a ticket if it applies a close of it where the ticket is, gives it a folio if it applies
      one there, and changes nothing else of it. */
  lemma RowStep(s: System, ev: Event, n: int, t: int)
    requires RowsOk(s) && Enabled(s, ev) && !ev.Reassign? && n in s.shards && t in s.shards[n].tickets
    ensures var d := Next(s, ev);
            && n in d.shards && t in d.shards[n].tickets
            && d.shards[n].tickets[t] == Changed(s.shards[n].tickets[t], ClosedAt(ev, n, t), FolioAt(s, ev, n, t))
  {
    assert RowChanges(s, ev, n, t) by {
      match ev
      case Insert(r, id, u, dv, now, applied, targets) =>
        InsertChangesNoRow(s, r, id, u, dv, now, applied, targets, n, t);
      case Note(r, folio, applied, targets) => NoteChangesRow(s, r, folio, applied, targets, n, t);
      case Mark(r, applied, targets) => MarkChangesNoRow(s, r, applied, targets, n, t);
      case Close(k, x, e, now, applied, targets) => CloseChangesRow(s, k, x, e, now, applied, targets, n, t);
      case Arrive(m, now) => ArrivalChangesRow(s, m, now, n, t);
      case AddIngeniero(_, _, _, _) => OthersChangeNoRow(s, ev, n, t);
      case LockStep(_) => OthersChangeNoRow(s, ev, n, t);
      case Read(_, _, _) => OthersChangeNoRow(s, ev, n, t);
      case Choose(_) => OthersChangeNoRow(s, ev, n, t);
      case Abandon(_) => OthersChangeNoRow(s, ev, n, t);
      case Finish(_) => OthersChangeNoRow(s, ev, n, t);
    }
  }

  /** The clock of the last close of the ticket that node n has applied in a run. */
  function LastClose(evs: seq<Event>, n: int, t: int): (at: Option<string>)
    ensures at.Some? <==> exists i :: 0 <= i < |evs| && ClosesAt(evs[i], n, t)
    decreases |evs|
  {
    if evs == [] then None
    else
      var later := LastClose(evs[1..], n, t);
      assert forall i :: 0 < i < |evs| ==> evs[i] == evs[1..][i - 1];
      if later.Some? then later else ClosedAt(evs[0], n, t)
  }

  /** The last folio that node n has given the ticket in a run. */
  function LastFolio(s: System, evs: seq<Event>, n: int, t: int): Option<string>
    requires Legal(s, evs)
    decreases |evs|
  {
    if evs == [] then None
    else
      var later := LastFolio(Next(s, evs[0]), evs[1..], n, t);
      if later.Some? then later else FolioAt(s, evs[0], n, t)
  }

  lemma {:induction false} RowAlong(s: System, evs: seq<Event>, n: int, t: int)
    requires RowsOk(s) && Legal(s, evs) && NoReassignment(evs) && n in s.shards && t in s.shards[n].tickets
    ensures var d := Run(s, evs);
            && n in d.shards && t in d.shards[n].tickets
            && d.shards[n].tickets[t]
               == Changed(s.shards[n].tickets[t], LastClose(evs, n, t), LastFolio(s, evs, n, t))
    decreases |evs|
  {
    if evs == [] {
    } else {
      RowsStep(s, evs[0]);
      RowStep(s, evs[0], n, t);
      RowAlong(Next(s, evs[0]), evs[1..], n, t);
    }
  }

  lemma InitRows(start: System, m: int)
    requires Init(start, m)
    ensures RowsOk(start)
  {
    forall n | n in start.shards ensures TicketsAt(start, n) {
    }
  }

  /** In every run without reassignments, orderly or not, a ticket that was raised stays where it was raised, with
      the user and the device of the request, its branch, its time and its engineer, who is the first one called
      available in what the request had read.  It is closed exactly if a close of it has been applied there since,
      and its folio is the last one that was; its raise never turns to another ticket. */
  lemma TicketIsAsRequested(start: System, m: int, before: seq<Event>, r: ReqId, id: int, u: int, dv: int,
                            now: string, targets: set<int>, after: seq<Event>)
    requires Init(start, m) && Legal(start, before) && NoReassignment(before) && NoReassignment(after)
    requires var s, ev := Run(start, before), Insert(r, id, u, dv, now, true, targets);
             Enabled(s, ev) && Legal(Next(s, ev), after)
    ensures var s, ev := Run(start, before), Insert(r, id, u, dv, now, true, targets);
            var n, d, rows := s.lock.attempts[r].owner, Run(Next(s, ev), after), RowsRead(before, r);
            && n in d.shards && id in d.shards[n].tickets
            && (var row := d.shards[n].tickets[id];
                && row.id == id && row.usuario == u && row.dispositivo == dv && row.sucursal == n
                && row.createdAt == now
                && (exists k: nat :: IsFirstAvailable(rows, k) && row.ingeniero == rows[k].id)
                && (row.estado == CERRADO <==> exists i :: 0 <= i < |after| && ClosesAt(after[i], n, id))
                && (var closed := LastClose(after, n, id); row.closedAt == if closed.Some? then closed.value else "")
                && (var folio := LastFolio(Next(s, ev), after, n, id);
                    row.folio == if folio.Some? then folio.value else "")
                && HasTicket(RaiseOf(d, r), id, row.ingeniero))
            && forall k :: k in d.shards && id in d.shards[k].tickets ==> k == n
  {
    var s, ev := Run(start, before), Insert(r, id, u, dv, now, true, targets);
    var n := s.lock.attempts[r].owner;
    InitRows(start, m);
    RowsAlong(start, before);
    ChosenIsFirstAvailable(start, m, before, r);
    InsertedRows(s, r, id, u, dv, now, targets);
    InsertStoresRequest(s, r, id, u, dv, now, targets);
    RowAlong(Next(s, ev), after, n, id);
    RaiseStaysOnTicket(Next(s, ev), after, r, id, RaiseOf(s, r).eng);
    RowsAlong(Next(s, ev), after);
    var d := Run(Next(s, ev), after);
    forall k | k in d.shards && id in d.shards[k].tickets ensures k == n {
      assert TicketsAt(d, k) && TicketsAt(d, n);
    }
  }
}
