/** The tables of one node, the write statements on them (internal/db/db.go) and the interpreter that
    applies a committed operation to them (buildCommitHandler in cmd/main.go).

    A table is a map keyed by the integer primary key.  The clock that stamps closed_at is a parameter. */
module Database {
  import opened Common

  datatype Estado = ABIERTO | CERRADO

  datatype Ingeniero = Ingeniero(id: int, nombre: string, sucursal: int, disponible: int)
  datatype Usuario = Usuario(id: int, nombre: string, sucursal: int)
  datatype Dispositivo = Dispositivo(id: int, nombre: string, tipo: string, sucursal: int, ingeniero: int)
  datatype Ticket = Ticket(id: int, usuario: int, ingeniero: int, sucursal: int, dispositivo: int,
                           estado: Estado, folio: string, createdAt: string, closedAt: string)

  datatype Tables = Tables(
    ingenieros: map<int, Ingeniero>,
    usuarios: map<int, Usuario>,
    dispositivos: map<int, Dispositivo>,
    tickets: map<int, Ticket>)

  const EMPTY := Tables(map[], map[], map[], map[])

  /** The operations that are voted on and committed. */
  datatype Op =
    | InsertUsuario(usuario: Usuario)
    | InsertIngeniero(ingeniero: Ingeniero)
    | InsertDispositivo(dispositivo: Dispositivo)
    | InsertTicket(ticket: Ticket)
    | ReassignTicket(ticket: Ticket)
    | UpdateTicketFolio(idTicket: int, folio: string)
    | CloseTicket(idTicket: int, idIngeniero: int)
    | UpdateDisponible(idIngeniero: int, disponible: int)
    | Unknown

  // ---- the statements --------------------------------------------------------------------------

  function InsertOrIgnore<R>(table: map<int, R>, id: int, row: R): map<int, R> {
    if id in table then table else table[id := row]
  }

  function SetDisponible(table: map<int, Ingeniero>, id: int, disponible: int): map<int, Ingeniero> {
    if id in table then table[id := table[id].(disponible := disponible)] else table
  }

  function SetFolio(table: map<int, Ticket>, id: int, folio: string): map<int, Ticket> {
    if id in table then table[id := table[id].(folio := folio)] else table
  }

  function SetClosed(table: map<int, Ticket>, id: int, now: string): map<int, Ticket> {
    if id in table then table[id := table[id].(estado := CERRADO, closedAt := now)] else table
  }

  /** A committed operation on a database that keeps every branch. */
  function Apply(op: Op, now: string, t: Tables): Tables {
    match op
    case InsertUsuario(r) => t.(usuarios := InsertOrIgnore(t.usuarios, r.id, r))
    case InsertIngeniero(r) => t.(ingenieros := InsertOrIgnore(t.ingenieros, r.id, r.(disponible := 1)))
    case InsertDispositivo(r) => t.(dispositivos := InsertOrIgnore(t.dispositivos, r.id, r))
    case InsertTicket(r) => t.(tickets := InsertOrIgnore(t.tickets, r.id, r.(closedAt := "")))
    case ReassignTicket(r) => t.(tickets := InsertOrIgnore(t.tickets, r.id, r.(closedAt := "")))
    case UpdateTicketFolio(id, folio) => t.(tickets := SetFolio(t.tickets, id, folio))
    case CloseTicket(id, eng) =>
      t.(tickets := SetClosed(t.tickets, id, now), ingenieros := SetDisponible(t.ingenieros, eng, 1))
    case UpdateDisponible(eng, d) => t.(ingenieros := SetDisponible(t.ingenieros, eng, d))
    case Unknown => t
  }

  /** The branch whose shard takes an inserted row. */
  function BranchOf(op: Op): Option<int> {
    match op
    case InsertUsuario(r) => Some(r.sucursal)
    case InsertIngeniero(r) => Some(r.sucursal)
    case InsertDispositivo(r) => Some(r.sucursal)
    case InsertTicket(r) => Some(r.sucursal)
    case ReassignTicket(r) => Some(r.sucursal)
    case _ => None
  }

  /** A committed operation on the shard of node self: it skips rows of other branches. */
  function ApplyAt(self: int, op: Op, now: string, t: Tables): Tables {
    if BranchOf(op).Some? && BranchOf(op).value != self then t else Apply(op, now, t)
  }

  // ---- the database object -----------------------------------------------------------------------

  class DB {
    var ingenieros: map<int, Ingeniero>
    var usuarios: map<int, Usuario>
    var dispositivos: map<int, Dispositivo>
    var tickets: map<int, Ticket>

    constructor ()
      ensures View() == EMPTY
    {
      ingenieros, usuarios, dispositivos, tickets := map[], map[], map[], map[];
    }

    function View(): Tables
      reads this
    {
      Tables(ingenieros, usuarios, dispositivos, tickets)
    }

    method InsertIngenieroRow(id: int, nombre: string, sucursal: int)
      modifies this`ingenieros
      ensures View() == Apply(InsertIngeniero(Ingeniero(id, nombre, sucursal, 1)), "", old(View()))
      ensures ingenieros == if id in old(ingenieros) then old(ingenieros)
                            else old(ingenieros)[id := Ingeniero(id, nombre, sucursal, 1)]
    {
      if id !in ingenieros {
        ingenieros := ingenieros[id := Ingeniero(id, nombre, sucursal, 1)];
      }
    }

    method InsertUsuarioRow(id: int, nombre: string, sucursal: int)
      modifies this`usuarios
      ensures View() == Apply(InsertUsuario(Usuario(id, nombre, sucursal)), "", old(View()))
      ensures usuarios == if id in old(usuarios) then old(usuarios)
                          else old(usuarios)[id := Usuario(id, nombre, sucursal)]
    {
      if id !in usuarios {
        usuarios := usuarios[id := Usuario(id, nombre, sucursal)];
      }
    }

    method InsertDispositivoRow(id: int, nombre: string, tipo: string, sucursal: int, ingeniero: int)
      modifies this`dispositivos
      ensures View() == Apply(InsertDispositivo(Dispositivo(id, nombre, tipo, sucursal, ingeniero)), "", old(View()))
      ensures dispositivos == if id in old(dispositivos) then old(dispositivos)
                              else old(dispositivos)[id := Dispositivo(id, nombre, tipo, sucursal, ingeniero)]
    {
      if id !in dispositivos {
        dispositivos := dispositivos[id := Dispositivo(id, nombre, tipo, sucursal, ingeniero)];
      }
    }

    method InsertTicketFull(t: Ticket)
      modifies this`tickets
      ensures tickets == if t.id in old(tickets) then old(tickets) else old(tickets)[t.id := t]
    {
      if t.id !in tickets {
        tickets := tickets[t.id := t];
      }
    }

    method UpdateFolio(id: int, folio: string)
      modifies this`tickets
      ensures View() == Apply(UpdateTicketFolio(id, folio), "", old(View()))
      ensures tickets == if id in old(tickets) then old(tickets)[id := old(tickets)[id].(folio := folio)]
                         else old(tickets)
    {
      if id in tickets {
        tickets := tickets[id := tickets[id].(folio := folio)];
      }
    }

    method Close(id: int, now: string)
      modifies this`tickets
      ensures tickets == if id in old(tickets)
                         then old(tickets)[id := old(tickets)[id].(estado := CERRADO, closedAt := now)]
                         else old(tickets)
    {
      if id in tickets {
        tickets := tickets[id := tickets[id].(estado := CERRADO, closedAt := now)];
      }
    }

    method SetIngenieroDisponible(id: int, disponible: int)
      modifies this`ingenieros
      ensures View() == Apply(UpdateDisponible(id, disponible), "", old(View()))
      ensures ingenieros == if id in old(ingenieros)
                            then old(ingenieros)[id := old(ingenieros)[id].(disponible := disponible)]
                            else old(ingenieros)
    {
      if id in ingenieros {
        ingenieros := ingenieros[id := ingenieros[id].(disponible := disponible)];
      }
    }

    method CountIngenieros() returns (n: nat)
      ensures n == |ingenieros|
    {
      n := |ingenieros|;
    }
  }

  /** The commit handler of node self. */
  method Commit(self: int, db: DB, op: Op, now: string)
    modifies db
    ensures db.View() == ApplyAt(self, op, now, old(db.View()))
  {
    match op {
      case InsertUsuario(r) =>
        if r.sucursal != self { return; }
        db.InsertUsuarioRow(r.id, r.nombre, r.sucursal);
      case InsertIngeniero(r) =>
        if r.sucursal != self { return; }
        db.InsertIngenieroRow(r.id, r.nombre, r.sucursal);
      case InsertDispositivo(r) =>
        if r.sucursal != self { return; }
        db.InsertDispositivoRow(r.id, r.nombre, r.tipo, r.sucursal, r.ingeniero);
      case InsertTicket(r) =>
        if r.sucursal != self { return; }
        db.InsertTicketFull(r.(closedAt := ""));
      case ReassignTicket(r) =>
        if r.sucursal != self { return; }
        db.InsertTicketFull(r.(closedAt := ""));
      case UpdateTicketFolio(id, folio) =>
        db.UpdateFolio(id, folio);
      case CloseTicket(id, eng) =>
        db.Close(id, now);
        db.SetIngenieroDisponible(eng, 1);
      case UpdateDisponible(eng, d) =>
        db.SetIngenieroDisponible(eng, d);
      case Unknown =>
    }
  }

  // ---- what a commit leaves in the tables ----------------------------------------------------------

  /** The operation inserts an engineer, a user, a device or a ticket under an ID that is not taken. */
  predicate Creates(op: Op, t: Tables) {
    match op
    case InsertUsuario(r) => r.id !in t.usuarios
    case InsertIngeniero(r) => r.id !in t.ingenieros
    case InsertDispositivo(r) => r.id !in t.dispositivos
    case InsertTicket(r) => r.id !in t.tickets
    case ReassignTicket(r) => r.id !in t.tickets
    case _ => false
  }

  /** All rows of the first table are in the second, as they were. */
  ghost predicate Grows<R(!new)>(table: map<int, R>, after: map<int, R>, id: int) {
    && after.Keys == table.Keys + {id}
    && forall k :: k in table ==> after[k] == table[k]
  }

  /** An insert adds the row that it carries, field by field, to the table of its kind: an engineer starts out
      available and a ticket without a closing time, whatever the operation says of these.  It leaves a row
      that is already there, and everything else, alone. */
  lemma InsertsStoreWhatTheyCarry(op: Op, now: string, t: Tables)
    ensures var d := Apply(op, now, t);
      && (op.InsertUsuario? ==>
            && d == t.(usuarios := d.usuarios) && Grows(t.usuarios, d.usuarios, op.usuario.id)
            && (Creates(op, t) ==>
                  var row := d.usuarios[op.usuario.id];
                  && row.id == op.usuario.id && row.nombre == op.usuario.nombre
                  && row.sucursal == op.usuario.sucursal))
      && (op.InsertIngeniero? ==>
            && d == t.(ingenieros := d.ingenieros) && Grows(t.ingenieros, d.ingenieros, op.ingeniero.id)
            && (Creates(op, t) ==>
                  var row := d.ingenieros[op.ingeniero.id];
                  && row.id == op.ingeniero.id && row.nombre == op.ingeniero.nombre
                  && row.sucursal == op.ingeniero.sucursal && row.disponible == 1))
      && (op.InsertDispositivo? ==>
            && d == t.(dispositivos := d.dispositivos) && Grows(t.dispositivos, d.dispositivos, op.dispositivo.id)
            && (Creates(op, t) ==>
                  var row := d.dispositivos[op.dispositivo.id];
                  && row.id == op.dispositivo.id && row.nombre == op.dispositivo.nombre
                  && row.tipo == op.dispositivo.tipo && row.sucursal == op.dispositivo.sucursal
                  && row.ingeniero == op.dispositivo.ingeniero))
      && (op.InsertTicket? || op.ReassignTicket? ==>
            && d == t.(tickets := d.tickets) && Grows(t.tickets, d.tickets, op.ticket.id)
            && (Creates(op, t) ==>
                  var row := d.tickets[op.ticket.id];
                  && row.id == op.ticket.id && row.usuario == op.ticket.usuario
                  && row.ingeniero == op.ticket.ingeniero && row.sucursal == op.ticket.sucursal
                  && row.dispositivo == op.ticket.dispositivo && row.estado == op.ticket.estado
                  && row.folio == op.ticket.folio && row.createdAt == op.ticket.createdAt && row.closedAt == ""))
  {
  }

  /** The same rows are in both tables and all but one are what they were. */
  ghost predicate Differs<R(!new)>(table: map<int, R>, after: map<int, R>, id: int) {
    && after.Keys == table.Keys
    && forall k :: k in table && k != id ==> after[k] == table[k]
  }

  /** An update changes the one field that it is about in the one row that it names, if that is there: the
      folio, the availability, or for a close the state and the closing time of the ticket and the
      availability of the engineer that it names. */
  lemma UpdatesChangeOneRow(op: Op, now: string, t: Tables)
    requires op.UpdateTicketFolio? || op.CloseTicket? || op.UpdateDisponible?
    ensures var d := Apply(op, now, t);
      && d.usuarios == t.usuarios && d.dispositivos == t.dispositivos
      && (op.UpdateTicketFolio? ==>
            && d.ingenieros == t.ingenieros && Differs(t.tickets, d.tickets, op.idTicket)
            && (op.idTicket in t.tickets ==>
                  && d.tickets[op.idTicket].folio == op.folio
                  && d.tickets[op.idTicket].(folio := "") == t.tickets[op.idTicket].(folio := "")))
      && (op.CloseTicket? ==>
            && Differs(t.tickets, d.tickets, op.idTicket) && Differs(t.ingenieros, d.ingenieros, op.idIngeniero)
            && (op.idTicket in t.tickets ==>
                  var row := d.tickets[op.idTicket];
                  && row.estado == CERRADO && row.closedAt == now
                  && row.(estado := ABIERTO, closedAt := "")
                     == t.tickets[op.idTicket].(estado := ABIERTO, closedAt := ""))
            && (op.idIngeniero in t.ingenieros ==>
                  && d.ingenieros[op.idIngeniero].disponible == 1
                  && d.ingenieros[op.idIngeniero].(disponible := 0)
                     == t.ingenieros[op.idIngeniero].(disponible := 0)))
      && (op.UpdateDisponible? ==>
            && d.tickets == t.tickets && Differs(t.ingenieros, d.ingenieros, op.idIngeniero)
            && (op.idIngeniero in t.ingenieros ==>
                  && d.ingenieros[op.idIngeniero].disponible == op.disponible
                  && d.ingenieros[op.idIngeniero].(disponible := 0)
                     == t.ingenieros[op.idIngeniero].(disponible := 0)))
  {
  }

  /** A node applies every update and every close, and the inserts of its own branch; inserts of another
      branch leave it alone, and so does an operation that it does not know. */
  lemma OnlyOtherBranchesAreSkipped(self: int, op: Op, now: string, t: Tables)
    ensures var other := match op
                         case InsertUsuario(r) => r.sucursal != self
                         case InsertIngeniero(r) => r.sucursal != self
                         case InsertDispositivo(r) => r.sucursal != self
                         case InsertTicket(r) => r.sucursal != self
                         case ReassignTicket(r) => r.sucursal != self
                         case _ => false;
            ApplyAt(self, op, now, t) == if other || op.Unknown? then t else Apply(op, now, t)
  {
  }

  /** Every row is kept under its own ID. */
  ghost predicate Keyed(t: Tables) {
    && (forall id :: id in t.ingenieros ==> t.ingenieros[id].id == id)
    && (forall id :: id in t.usuarios ==> t.usuarios[id].id == id)
    && (forall id :: id in t.dispositivos ==> t.dispositivos[id].id == id)
    && (forall id :: id in t.tickets ==> t.tickets[id].id == id)
  }

  lemma StaysKeyed(op: Op, now: string, t: Tables)
    requires Keyed(t)
    ensures Keyed(Apply(op, now, t))
  {
  }

  // ---- redelivery --------------------------------------------------------------------------------

  /** One operation applied once per clock reading. */
  function ApplyTimes(self: int, op: Op, nows: seq<string>, t: Tables): Tables
    decreases |nows|
  {
    if nows == [] then t else ApplyTimes(self, op, nows[1..], ApplyAt(self, op, nows[0], t))
  }

  lemma ApplyTwice(self: int, op: Op, first: string, second: string, t: Tables)
    ensures ApplyAt(self, op, second, ApplyAt(self, op, first, t)) == ApplyAt(self, op, second, t)
  {
    match op
    case CloseTicket(id, eng) =>
      if id in t.tickets {
        assert SetClosed(SetClosed(t.tickets, id, first), id, second) == SetClosed(t.tickets, id, second);
      }
    case _ =>
  }

  /** A commit that arrives several times in a row leaves exactly what its last arrival alone would: the
      clock reading, hence closed_at, is all that an earlier arrival could change. */
  lemma {:induction false} RedeliveryIsOneDelivery(self: int, op: Op, nows: seq<string>, t: Tables)
    requires nows != []
    ensures ApplyTimes(self, op, nows, t) == ApplyAt(self, op, nows[|nows| - 1], t)
    decreases |nows|
  {
    if |nows| == 1 {
      assert nows[1..] == [];
    } else {
      RedeliveryIsOneDelivery(self, op, nows[1..], ApplyAt(self, op, nows[0], t));
      ApplyTwice(self, op, nows[0], nows[|nows| - 1], t);
    }
  }

  ghost predicate SameButClosedAt(a: Tables, b: Tables) {
    && a.(tickets := b.tickets) == b
    && a.tickets.Keys == b.tickets.Keys
    && forall id :: id in a.tickets ==> a.tickets[id].(closedAt := "") == b.tickets[id].(closedAt := "")
  }

  /** A redelivery with another clock changes nothing but closed_at. */
  lemma RedeliveryChangesOnlyClosedAt(self: int, op: Op, nows: seq<string>, now: string, t: Tables)
    requires nows != []
    ensures SameButClosedAt(ApplyTimes(self, op, nows, t), ApplyAt(self, op, now, t))
  {
    RedeliveryIsOneDelivery(self, op, nows, t);
  }
}
