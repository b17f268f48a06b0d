/** The shards against one plain database (buildCommitHandler in cmd/main.go): every node applies the
    commits it receives, in its own order and with its own clock, and keeps only its branch's rows. */
module Sharding {
  import opened Common
  import opened Database

  // ---- rows --------------------------------------------------------------------------------------

  datatype Key = IngenieroKey(id: int) | UsuarioKey(id: int) | DispositivoKey(id: int) | TicketKey(id: int)

  datatype Row =
    | IngenieroRow(i: Ingeniero)
    | UsuarioRow(u: Usuario)
    | DispositivoRow(d: Dispositivo)
    | TicketRow(t: Ticket)

  function RowAt(t: Tables, k: Key): Option<Row> {
    match k
    case IngenieroKey(id) => if id in t.ingenieros then Some(IngenieroRow(t.ingenieros[id])) else None
    case UsuarioKey(id) => if id in t.usuarios then Some(UsuarioRow(t.usuarios[id])) else None
    case DispositivoKey(id) => if id in t.dispositivos then Some(DispositivoRow(t.dispositivos[id])) else None
    case TicketKey(id) => if id in t.tickets then Some(TicketRow(t.tickets[id])) else None
  }

  lemma SameRowsSameTables(a: Tables, b: Tables)
    requires forall k :: RowAt(a, k) == RowAt(b, k)
    ensures a == b
  {
    forall id ensures id in a.ingenieros <==> id in b.ingenieros
              ensures id in a.ingenieros ==> a.ingenieros[id] == b.ingenieros[id] {
      assert RowAt(a, IngenieroKey(id)) == RowAt(b, IngenieroKey(id));
    }
    forall id ensures id in a.usuarios <==> id in b.usuarios
              ensures id in a.usuarios ==> a.usuarios[id] == b.usuarios[id] {
      assert RowAt(a, UsuarioKey(id)) == RowAt(b, UsuarioKey(id));
    }
    forall id ensures id in a.dispositivos <==> id in b.dispositivos
              ensures id in a.dispositivos ==> a.dispositivos[id] == b.dispositivos[id] {
      assert RowAt(a, DispositivoKey(id)) == RowAt(b, DispositivoKey(id));
    }
    forall id ensures id in a.tickets <==> id in b.tickets
              ensures id in a.tickets ==> a.tickets[id] == b.tickets[id] {
      assert RowAt(a, TicketKey(id)) == RowAt(b, TicketKey(id));
    }
    assert a.ingenieros == b.ingenieros && a.usuarios == b.usuarios;
    assert a.dispositivos == b.dispositivos && a.tickets == b.tickets;
  }

  /** The row that an operation inserts. */
  function Inserted(op: Op): Option<Key> {
    match op
    case InsertUsuario(r) => Some(UsuarioKey(r.id))
    case InsertIngeniero(r) => Some(IngenieroKey(r.id))
    case InsertDispositivo(r) => Some(DispositivoKey(r.id))
    case InsertTicket(r) => Some(TicketKey(r.id))
    case ReassignTicket(r) => Some(TicketKey(r.id))
    case _ => None
  }

  predicate Touches(op: Op, k: Key) {
    || Inserted(op) == Some(k)
    || (op.UpdateTicketFolio? && k == TicketKey(op.idTicket))
    || (op.CloseTicket? && (k == TicketKey(op.idTicket) || k == IngenieroKey(op.idIngeniero)))
    || (op.UpdateDisponible? && k == IngenieroKey(op.idIngeniero))
  }

  /** What an operation makes of one row depends on that row alone. */
  lemma RowLocal(op: Op, now: string, a: Tables, b: Tables, k: Key)
    requires RowAt(a, k) == RowAt(b, k)
    ensures RowAt(Apply(op, now, a), k) == RowAt(Apply(op, now, b), k)
    ensures !Touches(op, k) ==> RowAt(Apply(op, now, a), k) == RowAt(a, k)
  {
  }

  /** An operation touches a row if and only if there are tables in which it changes it. */
  lemma TouchesIff(op: Op, k: Key)
    ensures Touches(op, k) <==> exists now, t :: RowAt(Apply(op, now, t), k) != RowAt(t, k)
  {
    if Touches(op, k) {
      var t := match k
               case IngenieroKey(id) =>
                 var d := if op.UpdateDisponible? && op.disponible == 0 then 1 else 0;
                 EMPTY.(ingenieros := if op.InsertIngeniero? then map[] else map[id := Ingeniero(id, "", 0, d)])
               case UsuarioKey(_) => EMPTY
               case DispositivoKey(_) => EMPTY
               case TicketKey(id) =>
                 var folio := if op.UpdateTicketFolio? && op.folio == "" then "none" else "";
                 var row := Ticket(id, 0, 0, 0, 0, ABIERTO, folio, "", "");
                 EMPTY.(tickets := if Inserted(op).Some? then map[] else map[id := row]);
      assert RowAt(Apply(op, "", t), k) != RowAt(t, k);
    } else {
      forall now, t ensures RowAt(Apply(op, now, t), k) == RowAt(t, k) {
        RowLocal(op, now, t, t, k);
      }
    }
  }

  lemma OnlyInsertsCreate(op: Op, now: string, t: Tables, k: Key)
    requires RowAt(t, k).None?
    ensures Inserted(op) == Some(k) <==> RowAt(Apply(op, now, t), k).Some?
  {
  }

  // ---- commit sequences ---------------------------------------------------------------------------

  datatype Entry = Entry(op: Op, now: string)

  function ApplyAll(es: seq<Entry>, t: Tables): Tables
    decreases |es|
  {
    if es == [] then t else ApplyAll(es[1..], Apply(es[0].op, es[0].now, t))
  }

  function ApplyAllAt(self: int, es: seq<Entry>, t: Tables): Tables
    decreases |es|
  {
    if es == [] then t else ApplyAllAt(self, es[1..], ApplyAt(self, es[0].op, es[0].now, t))
  }

  /** The entries that touch a row, in order. */
  function History(k: Key, es: seq<Entry>): seq<Entry>
    decreases |es|
  {
    if es == [] then []
    else if Touches(es[0].op, k) then [es[0]] + History(k, es[1..])
    else History(k, es[1..])
  }

  lemma {:induction false} HistoryDecides(k: Key, es: seq<Entry>, fs: seq<Entry>, a: Tables, b: Tables)
    requires RowAt(a, k) == RowAt(b, k)
    requires History(k, es) == History(k, fs)
    ensures RowAt(ApplyAll(es, a), k) == RowAt(ApplyAll(fs, b), k)
    decreases |es| + |fs|
  {
    if es != [] && !Touches(es[0].op, k) {
      RowLocal(es[0].op, es[0].now, a, a, k);
      HistoryDecides(k, es[1..], fs, Apply(es[0].op, es[0].now, a), b);
    } else if fs != [] && !Touches(fs[0].op, k) {
      RowLocal(fs[0].op, fs[0].now, b, b, k);
      HistoryDecides(k, es, fs[1..], a, Apply(fs[0].op, fs[0].now, b));
    } else if es != [] {
      assert History(k, es)[0] == es[0] && History(k, es)[1..] == History(k, es[1..]);
      assert fs != [] && History(k, fs)[0] == fs[0] && History(k, fs)[1..] == History(k, fs[1..]);
      RowLocal(es[0].op, es[0].now, a, b, k);
      HistoryDecides(k, es[1..], fs[1..], Apply(es[0].op, es[0].now, a), Apply(fs[0].op, fs[0].now, b));
    } else {
      assert fs == [];
    }
  }

  // ---- refinement ---------------------------------------------------------------------------------

  /** A row's ID fixes its branch. */
  ghost predicate HomeBound(home: int -> int, es: seq<Entry>) {
    forall i :: 0 <= i < |es| && Inserted(es[i].op).Some? ==>
      BranchOf(es[i].op) == Some(home(Inserted(es[i].op).value.id))
  }

  /** Every row of the plain database is in the shard of its home branch, and nowhere else. */
  ghost predicate Refines(nodes: set<int>, home: int -> int, shards: map<int, Tables>, global: Tables) {
    && shards.Keys == nodes
    && forall n, k: Key {:trigger RowAt(shards[n], k)} :: n in nodes ==>
         RowAt(shards[n], k) == if home(k.id) == n then RowAt(global, k) else None
  }

  /** No row belongs to a branch that has no node. */
  ghost predicate Housed(nodes: set<int>, home: int -> int, global: Tables) {
    forall k {:trigger RowAt(global, k)} :: RowAt(global, k).Some? ==> home(k.id) in nodes
  }

  /** A shard treats the rows of its own branch like the plain database and never creates another. */
  lemma {:induction false} ShardRow(self: int, home: int -> int, es: seq<Entry>, t: Tables, k: Key)
    requires HomeBound(home, es)
    requires home(k.id) != self ==> RowAt(t, k).None?
    ensures RowAt(ApplyAllAt(self, es, t), k) == if home(k.id) == self then RowAt(ApplyAll(es, t), k) else None
    decreases |es|
  {
    if es == [] {
    } else {
      var op, now := es[0].op, es[0].now;
      var next := ApplyAt(self, op, now, t);
      assert Inserted(op).Some? <==> BranchOf(op).Some?;
      assert HomeBound(home, es[1..]);
      OnlyInsertsCreateHere(self, home, op, now, t, k);
      RowLocal(op, now, t, t, k);
      ShardRow(self, home, es[1..], next, k);
      if home(k.id) == self {
        HistoryDecides(k, es[1..], es[1..], next, Apply(op, now, t));
      }
    }
  }

  lemma OnlyInsertsCreateHere(self: int, home: int -> int, op: Op, now: string, t: Tables, k: Key)
    requires Inserted(op).Some? ==> BranchOf(op) == Some(home(Inserted(op).value.id))
    requires home(k.id) != self ==> RowAt(t, k).None?
    ensures var next := ApplyAt(self, op, now, t);
            if home(k.id) == self then RowAt(next, k) == RowAt(Apply(op, now, t), k) else RowAt(next, k).None?
  {
    if home(k.id) != self {
      OnlyInsertsCreate(op, now, t, k);
    } else {
      RowLocal(op, now, t, t, k);
    }
  }

  lemma {:induction false} StaysHoused(nodes: set<int>, home: int -> int, es: seq<Entry>, t: Tables)
    requires Housed(nodes, home, t) && HomeBound(home, es)
    requires forall i :: 0 <= i < |es| && BranchOf(es[i].op).Some? ==> BranchOf(es[i].op).value in nodes
    ensures Housed(nodes, home, ApplyAll(es, t))
    decreases |es|
  {
    if es == [] {
    } else {
      var next := Apply(es[0].op, es[0].now, t);
      forall k | RowAt(next, k).Some? ensures home(k.id) in nodes {
        if RowAt(t, k).None? {
          OnlyInsertsCreate(es[0].op, es[0].now, t, k);
          assert BranchOf(es[0].op) == Some(home(k.id));
        }
      }
      StaysHoused(nodes, home, es[1..], next);
    }
  }

  /** The shards refine one plain database.  Every node may apply the commits in an order of its own and
      stamp them with its own clock, as long as each row's home branch sees that row's history as the
      plain database does; what a node does with rows of other branches does not matter. */
  lemma ShardsRefineDatabase(nodes: set<int>, home: int -> int, shards: map<int, Tables>, global: Tables,
                             delivered: map<int, seq<Entry>>, es: seq<Entry>)
    requires Refines(nodes, home, shards, global) && Housed(nodes, home, global)
    requires delivered.Keys == nodes
    requires HomeBound(home, es) && forall n :: n in nodes ==> HomeBound(home, delivered[n])
    requires forall i :: 0 <= i < |es| && BranchOf(es[i].op).Some? ==> BranchOf(es[i].op).value in nodes
    requires forall n, k: Key {:trigger History(k, delivered[n])} ::
               n in nodes && home(k.id) == n ==> History(k, delivered[n]) == History(k, es)
    ensures var after := map n | n in nodes :: ApplyAllAt(n, delivered[n], shards[n]);
            Refines(nodes, home, after, ApplyAll(es, global)) && Housed(nodes, home, ApplyAll(es, global))
  {
    StaysHoused(nodes, home, es, global);
    forall n, k | n in nodes
      ensures RowAt(ApplyAllAt(n, delivered[n], shards[n]), k)
              == if home(k.id) == n then RowAt(ApplyAll(es, global), k) else None
    {
      assert RowAt(shards[n], k) == if home(k.id) == n then RowAt(global, k) else None;
      ShardRow(n, home, delivered[n], shards[n], k);
      if home(k.id) == n {
        assert History(k, delivered[n]) == History(k, es);
        HistoryDecides(k, delivered[n], es, shards[n], global);
      }
    }
  }

  /** Two orders of delivery that agree on what happens to each row of the node's branch leave one shard. */
  lemma AgreeingOrdersGiveOneShard(self: int, home: int -> int, es: seq<Entry>, fs: seq<Entry>, t: Tables)
    requires HomeBound(home, es) && HomeBound(home, fs)
    requires forall k: Key {:trigger RowAt(t, k)} :: home(k.id) != self ==> RowAt(t, k).None?
    requires forall k: Key {:trigger History(k, es)} :: home(k.id) == self ==> History(k, es) == History(k, fs)
    ensures ApplyAllAt(self, es, t) == ApplyAllAt(self, fs, t)
  {
    forall k ensures RowAt(ApplyAllAt(self, es, t), k) == RowAt(ApplyAllAt(self, fs, t), k) {
      assert home(k.id) != self ==> RowAt(t, k).None?;
      ShardRow(self, home, es, t, k);
      ShardRow(self, home, fs, t, k);
      if home(k.id) == self {
        assert History(k, es) == History(k, fs);
        HistoryDecides(k, es, fs, t, t);
      }
    }
    SameRowsSameTables(ApplyAllAt(self, es, t), ApplyAllAt(self, fs, t));
  }

  // ---- what a raise and a close leave behind --------------------------------------------------------

  /** The commits of a raise, then that of the ticket's close. */
  function RaiseAndClose(ticket: Ticket, folio: string, raised: string, closed: string): seq<Entry> {
    [Entry(InsertTicket(ticket), raised), Entry(UpdateTicketFolio(ticket.id, folio), raised),
     Entry(UpdateDisponible(ticket.ingeniero, 0), raised), Entry(CloseTicket(ticket.id, ticket.ingeniero), closed)]
  }

  function ClosedTicket(ticket: Ticket, folio: string, closed: string): Ticket {
    ticket.(folio := folio, estado := CERRADO, closedAt := closed)
  }

  /** Raising a ticket and closing it undo each other on the engineer, who was available before; what
      remains is the closed ticket with its folio. */
  lemma CloseUndoesRaise(t: Tables, ticket: Ticket, folio: string, raised: string, closed: string)
    requires ticket.id !in t.tickets
    requires ticket.ingeniero in t.ingenieros && t.ingenieros[ticket.ingeniero].disponible == 1
    ensures ApplyAll(RaiseAndClose(ticket, folio, raised, closed), t)
            == t.(tickets := t.tickets[ticket.id := ClosedTicket(ticket, folio, closed)])
  {
    var es := RaiseAndClose(ticket, folio, raised, closed);
    var e := ticket.ingeniero;
    var busy := SetDisponible(t.ingenieros, e, 0);
    assert SetDisponible(busy, e, 1) == t.ingenieros;
    var open := t.tickets[ticket.id := ticket.(closedAt := "", folio := folio)];
    var t1 := Apply(es[0].op, raised, t);
    var t2 := Apply(es[1].op, raised, t1);
    assert t2 == t.(tickets := open);
    var t3 := Apply(es[2].op, raised, t2);
    assert t3 == t.(tickets := open, ingenieros := busy);
    assert es[1..] == [es[1], es[2], es[3]] && [es[1], es[2], es[3]][1..] == [es[2], es[3]];
    assert [es[2], es[3]][1..] == [es[3]] && [es[3]][1..] == [];
    assert ApplyAll(es, t) == ApplyAll([es[1], es[2], es[3]], t1);
    assert ApplyAll([es[1], es[2], es[3]], t1) == ApplyAll([es[2], es[3]], t2);
    assert ApplyAll([es[2], es[3]], t2) == ApplyAll([es[3]], t3);
    assert ApplyAll([es[3]], t3) == Apply(es[3].op, closed, t3);
  }

  // ---- the union of the shards ---------------------------------------------------------------------

  function Merge(order: seq<int>, shards: map<int, Tables>): Tables
    requires forall i :: 0 <= i < |order| ==> order[i] in shards
    decreases |order|
  {
    if order == [] then EMPTY
    else
      var rest := Merge(order[1..], shards);
      var t := shards[order[0]];
      Tables(t.ingenieros + rest.ingenieros, t.usuarios + rest.usuarios,
             t.dispositivos + rest.dispositivos, t.tickets + rest.tickets)
  }

  lemma {:induction false} MergedRow(order: seq<int>, home: int -> int, shards: map<int, Tables>, global: Tables,
                                     k: Key)
    requires forall i :: 0 <= i < |order| ==> order[i] in shards
    requires forall n :: n in shards ==> RowAt(shards[n], k) == if home(k.id) == n then RowAt(global, k) else None
    ensures RowAt(Merge(order, shards), k) == if home(k.id) in order then RowAt(global, k) else None
    decreases |order|
  {
    if order == [] {
    } else {
      var n := order[0];
      assert RowAt(shards[n], k) == if home(k.id) == n then RowAt(global, k) else None;
      MergedRow(order[1..], home, shards, global, k);
      var rest := Merge(order[1..], shards);
      assert RowAt(Merge(order, shards), k) == if RowAt(rest, k).Some? then RowAt(rest, k) else RowAt(shards[n], k);
    }
  }

  /** Collected from all nodes in any order, the shards are the plain database. */
  lemma UnionIsDatabase(order: seq<int>, home: int -> int, shards: map<int, Tables>, global: Tables)
    requires forall i :: 0 <= i < |order| ==> order[i] in shards
    requires forall n :: n in shards ==> n in order
    requires Refines(shards.Keys, home, shards, global) && Housed(shards.Keys, home, global)
    ensures Merge(order, shards) == global
  {
    var all := Merge(order, shards);
    forall k ensures RowAt(all, k) == RowAt(global, k) {
      forall n | n in shards
        ensures RowAt(shards[n], k) == if home(k.id) == n then RowAt(global, k) else None
      {
      }
      MergedRow(order, home, shards, global, k);
    }
    SameRowsSameTables(all, global);
  }

  // ---- exactly when one commit keeps the shards in step -------------------------------------------

  /** Every row of the plain database is in exactly one shard, and the shards hold nothing else. */
  ghost predicate Partition(shards: map<int, Tables>, global: Tables) {
    && (forall n, k: Key {:trigger RowAt(shards[n], k)} ::
          n in shards && RowAt(shards[n], k).Some? ==> RowAt(shards[n], k) == RowAt(global, k))
    && (forall n, m, k: Key {:trigger RowAt(shards[n], k), RowAt(shards[m], k)} ::
          n in shards && m in shards && RowAt(shards[n], k).Some? && RowAt(shards[m], k).Some? ==> n == m)
    && (forall k {:trigger RowAt(global, k)} ::
          RowAt(global, k).Some? ==> exists n :: n in shards && RowAt(shards[n], k).Some?)
  }

  /** Shards that refine a database none of whose rows lacks a node partition it. */
  lemma RefinedShardsPartition(home: int -> int, shards: map<int, Tables>, global: Tables)
    requires Refines(shards.Keys, home, shards, global) && Housed(shards.Keys, home, global)
    ensures Partition(shards, global)
  {
    forall n, k: Key | n in shards
      ensures RowAt(shards[n], k) == if home(k.id) == n then RowAt(global, k) else None
    {
    }
    forall k | RowAt(global, k).Some? ensures exists n :: n in shards && RowAt(shards[n], k).Some? {
      var n := home(k.id);
      assert n in shards && RowAt(shards[n], k) == RowAt(global, k);
    }
  }

  function ApplyEverywhere(shards: map<int, Tables>, op: Op, now: string): map<int, Tables> {
    map n | n in shards :: ApplyAt(n, op, now, shards[n])
  }

  /** The branch of an inserted row has a node; and a row that exists already is inserted again only at
      the node that has it, or at none. */
  predicate KeepsPartition(shards: map<int, Tables>, global: Tables, op: Op) {
    Inserted(op).Some? && BranchOf(op).Some? ==>
      var k := Inserted(op).value;
      var branch := BranchOf(op).value;
      if RowAt(global, k).None? then branch in shards
      else branch in shards ==> RowAt(shards[branch], k).Some?
  }

  /** What one commit makes of one row of one shard. */
  ghost predicate Fate(shards: map<int, Tables>, global: Tables, op: Op, now: string, n: int, k: Key)
    requires n in shards
  {
    var row := RowAt(ApplyAt(n, op, now, shards[n]), k);
    && (row.Some? ==> row == RowAt(Apply(op, now, global), k))
    && (row.Some? ==> RowAt(shards[n], k).Some? || (RowAt(global, k).None? && BranchOf(op) == Some(n)))
    && (RowAt(shards[n], k).Some? ==> row.Some?)
  }

  lemma OneShardPerRow(shards: map<int, Tables>, global: Tables, op: Op, now: string, n: int, m: int, k: Key)
    requires Partition(shards, global) && n in shards && m in shards
    requires Fate(shards, global, op, now, n, k) && Fate(shards, global, op, now, m, k)
    requires RowAt(ApplyAt(n, op, now, shards[n]), k).Some? && RowAt(ApplyAt(m, op, now, shards[m]), k).Some?
    ensures n == m
  {
    assert RowAt(shards[n], k).Some? ==> RowAt(shards[n], k) == RowAt(global, k);
    assert RowAt(shards[m], k).Some? ==> RowAt(shards[m], k) == RowAt(global, k);
  }

  lemma EveryRowHasAShard(shards: map<int, Tables>, global: Tables, op: Op, now: string, k: Key) returns (n: int)
    requires Partition(shards, global) && KeepsPartition(shards, global, op)
    requires RowAt(Apply(op, now, global), k).Some?
    ensures n in shards && RowAt(ApplyAt(n, op, now, shards[n]), k).Some?
  {
    if RowAt(global, k).Some? {
      n :| n in shards && RowAt(shards[n], k).Some?;
      RowSurvives(op, now, shards[n], k);
    } else {
      OnlyInsertsCreate(op, now, global, k);
      n := BranchOf(op).value;
      assert RowAt(shards[n], k).None?;
      OnlyInsertsCreate(op, now, shards[n], k);
    }
  }

  lemma PartitionKept(shards: map<int, Tables>, global: Tables, op: Op, now: string)
    requires Partition(shards, global) && KeepsPartition(shards, global, op)
    ensures Partition(ApplyEverywhere(shards, op, now), Apply(op, now, global))
  {
    var after, plain := ApplyEverywhere(shards, op, now), Apply(op, now, global);
    forall n, k: Key | n in shards ensures Fate(shards, global, op, now, n, k) {
      RowStep(shards, global, op, now, n, k);
    }
    forall n, k: Key | n in after && RowAt(after[n], k).Some? ensures RowAt(after[n], k) == RowAt(plain, k) {
      assert Fate(shards, global, op, now, n, k);
    }
    forall n, m, k: Key | n in after && m in after && RowAt(after[n], k).Some? && RowAt(after[m], k).Some?
      ensures n == m
    {
      OneShardPerRow(shards, global, op, now, n, m, k);
    }
    forall k: Key | RowAt(plain, k).Some? ensures exists n :: n in after && RowAt(after[n], k).Some? {
      var n := EveryRowHasAShard(shards, global, op, now, k);
      assert n in after && RowAt(after[n], k).Some?;
    }
  }

  lemma RowStep(shards: map<int, Tables>, global: Tables, op: Op, now: string, n: int, k: Key)
    requires Partition(shards, global) && KeepsPartition(shards, global, op) && n in shards
    ensures Fate(shards, global, op, now, n, k)
  {
    RowSurvives(op, now, shards[n], k);
    if RowAt(shards[n], k).Some? {
      assert RowAt(shards[n], k) == RowAt(global, k);
      RowLocal(op, now, shards[n], global, k);
      if BranchOf(op).Some? && BranchOf(op).value != n {
        InsertIgnoresExisting(op, now, global, k);
      }
    } else {
      OnlyInsertsCreate(op, now, shards[n], k);
      if Inserted(op) == Some(k) && BranchOf(op) == Some(n) {
        assert RowAt(global, k).None?;
        RowLocal(op, now, shards[n], global, k);
      }
    }
  }

  lemma RowSurvives(op: Op, now: string, t: Tables, k: Key)
    ensures RowAt(t, k).Some? ==> RowAt(Apply(op, now, t), k).Some?
  {
  }

  lemma InsertIgnoresExisting(op: Op, now: string, t: Tables, k: Key)
    requires Inserted(op).Some? && RowAt(t, k).Some?
    ensures RowAt(Apply(op, now, t), k) == RowAt(t, k)
  {
  }

  /** One commit, applied by all nodes, keeps the shards equal to the plain database if and only if the
      row it inserts has a node and is not already in another shard.  Updates and closes always do. */
  lemma PartitionKeptIff(shards: map<int, Tables>, global: Tables, op: Op, now: string)
    requires Partition(shards, global)
    ensures Partition(ApplyEverywhere(shards, op, now), Apply(op, now, global)) <==> KeepsPartition(shards, global, op)
  {
    if KeepsPartition(shards, global, op) {
      PartitionKept(shards, global, op, now);
    } else {
      var after := ApplyEverywhere(shards, op, now);
      var k, branch := Inserted(op).value, BranchOf(op).value;
      if RowAt(global, k).None? {
        OnlyInsertsCreate(op, now, global, k);
        forall n | n in after ensures RowAt(after[n], k).None? {
          assert RowAt(shards[n], k).None?;
        }
        assert RowAt(Apply(op, now, global), k).Some?;
      } else {
        var n :| n in shards && RowAt(shards[n], k).Some?;
        RowSurvives(op, now, shards[n], k);
        OnlyInsertsCreate(op, now, shards[branch], k);
        assert RowAt(after[n], k).Some? && RowAt(after[branch], k).Some? && n != branch;
      }
    }
  }

  /** REASSIGN_TICKET moves an open ticket to another branch by inserting it there; the row it leaves behind
      makes two of one ticket, always. */
  lemma ReassignDuplicates(shards: map<int, Tables>, global: Tables, source: int, ticket: Ticket, now: string)
    requires Partition(shards, global)
    requires source in shards && ticket.id in shards[source].tickets
    requires ticket.sucursal in shards && ticket.sucursal != source
    ensures !Partition(ApplyEverywhere(shards, ReassignTicket(ticket), now), Apply(ReassignTicket(ticket), now, global))
    ensures var after := ApplyEverywhere(shards, ReassignTicket(ticket), now);
            ticket.id in after[source].tickets && ticket.id in after[ticket.sucursal].tickets
  {
    var k := TicketKey(ticket.id);
    assert RowAt(shards[source], k).Some?;
    assert RowAt(shards[source], k) == RowAt(global, k);
    PartitionKeptIff(shards, global, ReassignTicket(ticket), now);
  }
}
