/** Handing over the open tickets of a node declared dead (RedistributeTickets in
    internal/service/ticket_service.go), as far as the rows that the master could read go. */
module Redistribution {
  import opened Common
  import opened Database
  import opened Sharding

  predicate ToMove(t: Ticket, dead: int) {
    t.estado == ABIERTO && t.sucursal == dead
  }

  predicate CanTake(e: Ingeniero, dead: int) {
    e.disponible == 1 && e.sucursal != dead
  }

  /** The tickets to hand over, in the order in which they were read. */
  function TicketsOf(rows: seq<Ticket>, dead: int): seq<Ticket> {
    if rows == [] then []
    else TicketsOf(rows[..|rows| - 1], dead) + (if ToMove(rows[|rows| - 1], dead) then [rows[|rows| - 1]] else [])
  }

  /** The engineers that may take one, in the order in which they were read. */
  function TakersOf(rows: seq<Ingeniero>, dead: int): seq<Ingeniero> {
    if rows == [] then []
    else TakersOf(rows[..|rows| - 1], dead) + (if CanTake(rows[|rows| - 1], dead) then [rows[|rows| - 1]] else [])
  }

  /** The ticket as its new engineer gets it: the folio is lost. */
  function Reassigned(t: Ticket, e: Ingeniero): Ticket {
    Ticket(t.id, t.usuario, e.id, e.sucursal, t.dispositivo, ABIERTO, "", t.createdAt, "")
  }

  function Min(a: nat, b: nat): nat {
    if a <= b then a else b
  }

  /** The proposals made for a dead node; None stands for a read that failed. */
  method RedistributeTickets(dead: int, ticketRows: Option<seq<Ticket>>, engRows: Option<seq<Ingeniero>>)
    returns (proposed: seq<Ticket>)
    ensures ticketRows.None? || engRows.None? ==> proposed == []
    ensures ticketRows.Some? && engRows.Some? ==>
              var tickets, takers := TicketsOf(ticketRows.value, dead), TakersOf(engRows.value, dead);
              && |proposed| == Min(|tickets|, |takers|)
              && forall i :: 0 <= i < |proposed| ==> proposed[i] == Reassigned(tickets[i], takers[i])
  {
    proposed := [];
    if ticketRows.None? {
      return;
    }
    var rows, tickets := ticketRows.value, [];
    for i := 0 to |rows|
      invariant tickets == TicketsOf(rows[..i], dead)
    {
      assert rows[..i + 1][..i] == rows[..i];
      if rows[i].estado == ABIERTO && rows[i].sucursal == dead {
        tickets := tickets + [rows[i]];
      }
    }
    assert rows[..|rows|] == rows;
    if tickets == [] || engRows.None? {
      return;
    }
    var engineers, available := engRows.value, [];
    for i := 0 to |engineers|
      invariant available == TakersOf(engineers[..i], dead)
    {
      assert engineers[..i + 1][..i] == engineers[..i];
      if engineers[i].disponible == 1 && engineers[i].sucursal != dead {
        available := available + [engineers[i]];
      }
    }
    assert engineers[..|engineers|] == engineers;
    ghost var takers := available;
    for i := 0 to |tickets|
      invariant |proposed| == i <= |takers| && available == takers[i..]
      invariant forall j :: 0 <= j < i ==> proposed[j] == Reassigned(tickets[j], takers[j])
    {
      if |available| == 0 {
        break;
      }
      var eng := available[0];
      available := available[1..];
      var t := tickets[i];
      var row := Ticket(t.id, t.usuario, eng.id, eng.sucursal, t.dispositivo, ABIERTO, "", t.createdAt, "");
      proposed := proposed + [row];
    }
  }

  // ---- what the two lists are --------------------------------------------------------------------

  ghost predicate DistinctTickets(rows: seq<Ticket>) {
    forall i, j :: 0 <= i < j < |rows| ==> rows[i].id != rows[j].id
  }

  ghost predicate DistinctEngineers(rows: seq<Ingeniero>) {
    forall i, j :: 0 <= i < j < |rows| ==> rows[i].id != rows[j].id
  }

  lemma {:induction false} TicketsExact(rows: seq<Ticket>, dead: int)
    ensures forall t :: t in TicketsOf(rows, dead) <==> t in rows && ToMove(t, dead)
    ensures DistinctTickets(rows) ==> DistinctTickets(TicketsOf(rows, dead))
    decreases |rows|
  {
    if rows == [] {
    } else {
      var init, last := rows[..|rows| - 1], rows[|rows| - 1];
      TicketsExact(init, dead);
      assert rows == init + [last];
      forall i | DistinctTickets(rows) && 0 <= i < |TicketsOf(init, dead)|
        ensures TicketsOf(init, dead)[i].id != last.id
      {
        assert TicketsOf(init, dead)[i] in init;
      }
    }
  }

  lemma {:induction false} TakersExact(rows: seq<Ingeniero>, dead: int)
    ensures forall e :: e in TakersOf(rows, dead) <==> e in rows && CanTake(e, dead)
    ensures DistinctEngineers(rows) ==> DistinctEngineers(TakersOf(rows, dead))
    decreases |rows|
  {
    if rows == [] {
    } else {
      var init, last := rows[..|rows| - 1], rows[|rows| - 1];
      TakersExact(init, dead);
      assert rows == init + [last];
      forall i | DistinctEngineers(rows) && 0 <= i < |TakersOf(init, dead)|
        ensures TakersOf(init, dead)[i].id != last.id
      {
        assert TakersOf(init, dead)[i] in init;
      }
    }
  }

  /** One ticket comes before another exactly as it was read. */
  lemma {:induction false} OrderKept(rows: seq<Ticket>, dead: int, i: nat, j: nat) returns (a: nat, b: nat)
    requires i < j < |TicketsOf(rows, dead)|
    ensures a < b < |rows| && rows[a] == TicketsOf(rows, dead)[i] && rows[b] == TicketsOf(rows, dead)[j]
    decreases |rows|
  {
    var init := rows[..|rows| - 1];
    if j < |TicketsOf(init, dead)| {
      a, b := OrderKept(init, dead, i, j);
    } else {
      assert TicketsOf(init, dead)[i] in TicketsOf(init, dead);
      TicketsExact(init, dead);
      a :| 0 <= a < |init| && init[a] == TicketsOf(init, dead)[i];
      b := |rows| - 1;
    }
  }

  /** And one engineer comes before another exactly as he was read. */
  lemma {:induction false} TakersOrderKept(rows: seq<Ingeniero>, dead: int, i: nat, j: nat) returns (a: nat, b: nat)
    requires i < j < |TakersOf(rows, dead)|
    ensures a < b < |rows| && rows[a] == TakersOf(rows, dead)[i] && rows[b] == TakersOf(rows, dead)[j]
    decreases |rows|
  {
    var init := rows[..|rows| - 1];
    if j < |TakersOf(init, dead)| {
      a, b := TakersOrderKept(init, dead, i, j);
    } else {
      assert TakersOf(init, dead)[i] in TakersOf(init, dead);
      TakersExact(init, dead);
      a :| 0 <= a < |init| && init[a] == TakersOf(init, dead)[i];
      b := |rows| - 1;
    }
  }

  /** Every proposal takes an open ticket of the dead node to an available engineer of another branch, and
      changes only its engineer, branch, folio and closing time. */
  lemma ProposalIsSound(dead: int, ticketRows: seq<Ticket>, engRows: seq<Ingeniero>, i: nat)
    requires i < Min(|TicketsOf(ticketRows, dead)|, |TakersOf(engRows, dead)|)
    ensures var t, e := TicketsOf(ticketRows, dead)[i], TakersOf(engRows, dead)[i];
            && t in ticketRows && e in engRows && ToMove(t, dead) && CanTake(e, dead)
            && Reassigned(t, e) == t.(ingeniero := e.id, sucursal := e.sucursal, folio := "", closedAt := "")
            && Reassigned(t, e).estado == ABIERTO && Reassigned(t, e).sucursal != dead
  {
    TicketsExact(ticketRows, dead);
    TakersExact(engRows, dead);
    assert TicketsOf(ticketRows, dead)[i] in TicketsOf(ticketRows, dead);
    assert TakersOf(engRows, dead)[i] in TakersOf(engRows, dead);
  }

  /** Two proposals are for different tickets and different engineers. */
  lemma ProposalsDiffer(dead: int, ticketRows: seq<Ticket>, engRows: seq<Ingeniero>, i: nat, j: nat)
    requires DistinctTickets(ticketRows) && DistinctEngineers(engRows)
    requires i < j < Min(|TicketsOf(ticketRows, dead)|, |TakersOf(engRows, dead)|)
    ensures var tickets, takers := TicketsOf(ticketRows, dead), TakersOf(engRows, dead);
            var p, q := Reassigned(tickets[i], takers[i]), Reassigned(tickets[j], takers[j]);
            p.id != q.id && p.ingeniero != q.ingeniero
  {
    TicketsExact(ticketRows, dead);
    TakersExact(engRows, dead);
  }

  // ---- whose tickets can be handed over at all -----------------------------------------------------

  /** A shard never gets a ticket of another branch. */
  lemma {:induction false} ShardHasOwnTickets(self: int, es: seq<Entry>, t: Tables)
    requires forall id :: id in t.tickets ==> t.tickets[id].sucursal == self
    ensures forall id :: id in ApplyAllAt(self, es, t).tickets ==> ApplyAllAt(self, es, t).tickets[id].sucursal == self
    decreases |es|
  {
    if es == [] {
    } else {
      ShardHasOwnTickets(self, es[1..], ApplyAt(self, es[0].op, es[0].now, t));
    }
  }

  ghost predicate Holds(tables: Tables, t: Ticket) {
    t.id in tables.tickets && tables.tickets[t.id] == t
  }

  /** Only the node itself has its tickets: rows read from the other nodes alone give nothing to hand over,
      whatever has been committed.  A node that is really down keeps its tickets. */
  lemma SilentNodeKeepsItsTickets(dead: int, delivered: map<int, seq<Entry>>, rows: seq<Ticket>)
    requires forall t :: t in rows ==>
               exists n :: n in delivered && n != dead && Holds(ApplyAllAt(n, delivered[n], EMPTY), t)
    ensures TicketsOf(rows, dead) == []
  {
    TicketsExact(rows, dead);
    forall t | t in rows ensures !ToMove(t, dead) {
      var n :| n in delivered && n != dead && Holds(ApplyAllAt(n, delivered[n], EMPTY), t);
      ShardHasOwnTickets(n, delivered[n], EMPTY);
    }
    if TicketsOf(rows, dead) != [] {
      assert TicketsOf(rows, dead)[0] in TicketsOf(rows, dead);
    }
  }
}
