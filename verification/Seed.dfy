/** The initial rows of a node (internal/db/seed.go) and the IDs made after them. */
module Seed {
  import opened Common
  import opened Database
  import opened IdAllocation
  import opened IdCounter
  import Sharding

  datatype SeedData = SeedData(ingenieros: seq<Ingeniero>, usuarios: seq<Usuario>, dispositivos: seq<Dispositivo>)

  function IngenieroInserts(rows: seq<Ingeniero>): seq<Op> {
    seq(|rows|, i requires 0 <= i < |rows| => InsertIngeniero(rows[i]))
  }

  function UsuarioInserts(rows: seq<Usuario>): seq<Op> {
    seq(|rows|, i requires 0 <= i < |rows| => InsertUsuario(rows[i]))
  }

  function DispositivoInserts(rows: seq<Dispositivo>): seq<Op> {
    seq(|rows|, i requires 0 <= i < |rows| => InsertDispositivo(rows[i]))
  }

  /** The inserts that seeding stands for: engineers, then users, then devices. */
  function Inserts(data: SeedData): seq<Op> {
    IngenieroInserts(data.ingenieros) + UsuarioInserts(data.usuarios) + DispositivoInserts(data.dispositivos)
  }

  /** Operations committed one after the other at one node. */
  function ApplyEach(self: int, ops: seq<Op>, t: Tables): Tables {
    if ops == [] then t else ApplyAt(self, ops[|ops| - 1], "", ApplyEach(self, ops[..|ops| - 1], t))
  }

  function IdOfRow(op: Op): int
    requires op.InsertIngeniero? || op.InsertUsuario? || op.InsertDispositivo?
  {
    match op
    case InsertIngeniero(r) => r.id
    case InsertUsuario(r) => r.id
    case InsertDispositivo(r) => r.id
  }

  predicate SeedOp(op: Op) {
    op.InsertIngeniero? || op.InsertUsuario? || op.InsertDispositivo?
  }

  /** The least counter from zero that no row of the branch is above. */
  ghost predicate IsMaxCounter(self: int, ops: seq<Op>, n: int) {
    && n >= 0
    && (forall i :: 0 <= i < |ops| && SeedOp(ops[i]) && BranchOf(ops[i]) == Some(self) ==>
          IdOfRow(ops[i]) - self * ID_SPAN <= n)
    && (n == 0 || exists i :: 0 <= i < |ops| && SeedOp(ops[i]) && BranchOf(ops[i]) == Some(self)
                              && IdOfRow(ops[i]) - self * ID_SPAN == n)
  }

  /** The inserts so far have been made at the node, and n is their largest counter. */
  ghost predicate Seeded(self: int, ops: seq<Op>, before: Tables, now: Tables, n: int) {
    now == ApplyEach(self, ops, before) && IsMaxCounter(self, ops, n)
  }

  function MaxCounter(self: int, n: int, op: Op): int
    requires SeedOp(op)
  {
    if BranchOf(op) == Some(self) && IdOfRow(op) - self * ID_SPAN > n then IdOfRow(op) - self * ID_SPAN else n
  }

  lemma OneMore(self: int, ops: seq<Op>, before: Tables, now: Tables, n: int, op: Op)
    requires Seeded(self, ops, before, now, n) && SeedOp(op)
    ensures Seeded(self, ops + [op], before, ApplyAt(self, op, "", now), MaxCounter(self, n, op))
  {
    var more := ops + [op];
    assert more[..|ops|] == ops;
    assert more[|ops|] == op;
    if n > 0 {
      var i :|
        0 <= i < |ops| && SeedOp(ops[i]) && BranchOf(ops[i]) == Some(self) && IdOfRow(ops[i]) - self * ID_SPAN == n;
      assert more[i] == ops[i];
    }
  }

  // The three loops of Seed, each with the inserts before it as a ghost.

  method SeedIngenieros(db: DB, nodeID: int, rows: seq<Ingeniero>, maxBefore: int,
                        ghost done: seq<Op>, ghost before: Tables)
    returns (maxCounter: int)
    requires Seeded(nodeID, done, before, db.View(), maxBefore)
    modifies db
    ensures Seeded(nodeID, done + IngenieroInserts(rows), before, db.View(), maxCounter)
  {
    maxCounter := maxBefore;
    var offset := nodeID * 10_000_000_000;
    ghost var ops := done;
    for i := 0 to |rows|
      invariant ops == done + IngenieroInserts(rows[..i])
      invariant Seeded(nodeID, ops, before, db.View(), maxCounter)
    {
      var r := rows[i];
      OneMore(nodeID, ops, before, db.View(), maxCounter, InsertIngeniero(r));
      ops := ops + [InsertIngeniero(r)];
      if r.sucursal != nodeID { continue; }
      db.InsertIngenieroRow(r.id, r.nombre, r.sucursal);
      if r.id - offset > maxCounter { maxCounter := r.id - offset; }
    }
    assert rows[..|rows|] == rows;
  }

  method SeedUsuarios(db: DB, nodeID: int, rows: seq<Usuario>, maxBefore: int,
                      ghost done: seq<Op>, ghost before: Tables)
    returns (maxCounter: int)
    requires Seeded(nodeID, done, before, db.View(), maxBefore)
    modifies db
    ensures Seeded(nodeID, done + UsuarioInserts(rows), before, db.View(), maxCounter)
  {
    maxCounter := maxBefore;
    var offset := nodeID * 10_000_000_000;
    ghost var ops := done;
    for i := 0 to |rows|
      invariant ops == done + UsuarioInserts(rows[..i])
      invariant Seeded(nodeID, ops, before, db.View(), maxCounter)
    {
      var r := rows[i];
      OneMore(nodeID, ops, before, db.View(), maxCounter, InsertUsuario(r));
      ops := ops + [InsertUsuario(r)];
      if r.sucursal != nodeID { continue; }
      db.InsertUsuarioRow(r.id, r.nombre, r.sucursal);
      if r.id - offset > maxCounter { maxCounter := r.id - offset; }
    }
    assert rows[..|rows|] == rows;
  }

  method SeedDispositivos(db: DB, nodeID: int, rows: seq<Dispositivo>, maxBefore: int,
                          ghost done: seq<Op>, ghost before: Tables)
    returns (maxCounter: int)
    requires Seeded(nodeID, done, before, db.View(), maxBefore)
    modifies db
    ensures Seeded(nodeID, done + DispositivoInserts(rows), before, db.View(), maxCounter)
  {
    maxCounter := maxBefore;
    var offset := nodeID * 10_000_000_000;
    ghost var ops := done;
    for i := 0 to |rows|
      invariant ops == done + DispositivoInserts(rows[..i])
      invariant Seeded(nodeID, ops, before, db.View(), maxCounter)
    {
      var r := rows[i];
      OneMore(nodeID, ops, before, db.View(), maxCounter, InsertDispositivo(r));
      ops := ops + [InsertDispositivo(r)];
      if r.sucursal != nodeID { continue; }
      db.InsertDispositivoRow(r.id, r.nombre, r.tipo, r.sucursal, r.ingeniero);
      if r.id - offset > maxCounter { maxCounter := r.id - offset; }
    }
    assert rows[..|rows|] == rows;
  }

  /** A node that has engineers is left alone.  Otherwise it ends up with what committing the inserts at it
      would have left, which is its own branch's rows, and the largest counter among them is reported. */
  method SeedNode(db: DB, nodeID: int, data: SeedData) returns (maxCounter: int)
    modifies db
    ensures old(db.ingenieros) != map[] ==> db.View() == old(db.View()) && maxCounter == 0
    ensures old(db.ingenieros) == map[] ==>
              && db.View() == ApplyEach(nodeID, Inserts(data), old(db.View()))
              && IsMaxCounter(nodeID, Inserts(data), maxCounter)
  {
    var count := db.CountIngenieros();
    if count > 0 {
      return 0;
    }
    ghost var before := db.View();
    maxCounter := SeedIngenieros(db, nodeID, data.ingenieros, 0, [], before);
    ghost var done := [] + IngenieroInserts(data.ingenieros);
    maxCounter := SeedUsuarios(db, nodeID, data.usuarios, maxCounter, done, before);
    maxCounter := SeedDispositivos(db, nodeID, data.dispositivos, maxCounter,
                                   done + UsuarioInserts(data.usuarios), before);
    assert done + UsuarioInserts(data.usuarios) + DispositivoInserts(data.dispositivos) == Inserts(data);
  }

  // ---- what is in the tables after seeding -------------------------------------------------------------

  /** The operation is the node's own insert of the row. */
  predicate OwnInsert(self: int, op: Op, k: Sharding.Key) {
    SeedOp(op) && Sharding.Inserted(op) == Some(k) && BranchOf(op) == Some(self)
  }

  /** A row that was missing and is among the inserts of the branch is there afterwards, as the first of them
      carries it. */
  lemma {:induction false} FirstInsertStands(self: int, ops: seq<Op>, t: Tables, i: nat, k: Sharding.Key)
    requires forall j :: 0 <= j < |ops| ==> SeedOp(ops[j])
    requires i < |ops| && OwnInsert(self, ops[i], k) && Sharding.RowAt(t, k).None?
    requires forall j :: 0 <= j < i ==> !OwnInsert(self, ops[j], k)
    ensures Sharding.RowAt(ApplyEach(self, ops, t), k) == Sharding.RowAt(Apply(ops[i], "", EMPTY), k)
    decreases |ops|
  {
    var last := |ops| - 1;
    var before := ops[..last];
    if i < last {
      FirstInsertStands(self, before, t, i, k);
      Sharding.OnlyInsertsCreate(ops[i], "", EMPTY, k);
      assert SeedOp(ops[last]);
      if Sharding.Inserted(ops[last]) == Some(k) {
        Sharding.InsertIgnoresExisting(ops[last], "", ApplyEach(self, before, t), k);
      } else {
        Sharding.RowLocal(ops[last], "", ApplyEach(self, before, t), ApplyEach(self, before, t), k);
      }
    } else {
      NotSeeded(self, before, t, k);
      Sharding.RowLocal(ops[i], "", ApplyEach(self, before, t), EMPTY, k);
    }
  }

  /** A row that the node has no insert for is what it was. */
  lemma {:induction false} NotSeeded(self: int, ops: seq<Op>, t: Tables, k: Sharding.Key)
    requires forall j :: 0 <= j < |ops| ==> SeedOp(ops[j]) && !OwnInsert(self, ops[j], k)
    ensures Sharding.RowAt(ApplyEach(self, ops, t), k) == Sharding.RowAt(t, k)
    decreases |ops|
  {
    if ops == [] {
    } else {
      var last := |ops| - 1;
      NotSeeded(self, ops[..last], t, k);
      assert SeedOp(ops[last]);
      var now := ApplyEach(self, ops[..last], t);
      Sharding.RowLocal(ops[last], "", now, now, k);
    }
  }

  lemma InsertsAreSeedOps(data: SeedData)
    ensures forall j :: 0 <= j < |Inserts(data)| ==> SeedOp(Inserts(data)[j])
  {
  }

  /** Seeding gives a node every engineer that the seed has for its branch, as the seed has him and available; of
      several under one ID the first one counts. */
  lemma EngineersAreSeeded(self: int, data: SeedData, before: Tables, i: nat)
    requires i < |data.ingenieros| && data.ingenieros[i].sucursal == self
    requires data.ingenieros[i].id !in before.ingenieros
    requires forall j :: 0 <= j < i && data.ingenieros[j].sucursal == self ==>
               data.ingenieros[j].id != data.ingenieros[i].id
    ensures var after, r := ApplyEach(self, Inserts(data), before), data.ingenieros[i];
            r.id in after.ingenieros && after.ingenieros[r.id] == Ingeniero(r.id, r.nombre, self, 1)
  {
    var ops := Inserts(data);
    InsertsAreSeedOps(data);
    assert forall j :: 0 <= j <= i ==> ops[j] == InsertIngeniero(data.ingenieros[j]);
    FirstInsertStands(self, ops, before, i, Sharding.IngenieroKey(data.ingenieros[i].id));
  }

  /** The same for users. */
  lemma UsersAreSeeded(self: int, data: SeedData, before: Tables, i: nat)
    requires i < |data.usuarios| && data.usuarios[i].sucursal == self
    requires data.usuarios[i].id !in before.usuarios
    requires forall j :: 0 <= j < i && data.usuarios[j].sucursal == self ==> data.usuarios[j].id != data.usuarios[i].id
    ensures var after, r := ApplyEach(self, Inserts(data), before), data.usuarios[i];
            r.id in after.usuarios && after.usuarios[r.id] == Usuario(r.id, r.nombre, self)
  {
    var ops, a := Inserts(data), |data.ingenieros|;
    InsertsAreSeedOps(data);
    assert forall j :: 0 <= j < a ==> ops[j] == InsertIngeniero(data.ingenieros[j]);
    assert forall j :: a <= j <= a + i ==> ops[j] == InsertUsuario(data.usuarios[j - a]);
    FirstInsertStands(self, ops, before, a + i, Sharding.UsuarioKey(data.usuarios[i].id));
  }

  /** And for devices, with the engineer that the seed gives them to. */
  lemma DevicesAreSeeded(self: int, data: SeedData, before: Tables, i: nat)
    requires i < |data.dispositivos| && data.dispositivos[i].sucursal == self
    requires data.dispositivos[i].id !in before.dispositivos
    requires forall j :: 0 <= j < i && data.dispositivos[j].sucursal == self ==>
               data.dispositivos[j].id != data.dispositivos[i].id
    ensures var after, r := ApplyEach(self, Inserts(data), before), data.dispositivos[i];
            && r.id in after.dispositivos
            && after.dispositivos[r.id] == Dispositivo(r.id, r.nombre, r.tipo, self, r.ingeniero)
  {
    var ops, a, b := Inserts(data), |data.ingenieros|, |data.ingenieros| + |data.usuarios|;
    InsertsAreSeedOps(data);
    assert forall j :: 0 <= j < a ==> ops[j] == InsertIngeniero(data.ingenieros[j]);
    assert forall j :: a <= j < b ==> ops[j] == InsertUsuario(data.usuarios[j - a]);
    assert forall j :: b <= j <= b + i ==> ops[j] == InsertDispositivo(data.dispositivos[j - b]);
    FirstInsertStands(self, ops, before, b + i, Sharding.DispositivoKey(data.dispositivos[i].id));
  }

  /** The part of start-up that concerns the counter: it is raised to the seed's largest, unless that is zero. */
  ghost predicate CounterRaised(s: State, maxCounter: int) {
    maxCounter > 0 ==> exists t :: t in s.setters && s.setters[t] == Setter(maxCounter, Returned)
  }

  /** After seeding and the start-up of the counter, which starts from the clock and is never negative, no
      ID made for the node is that of a seeded row. */
  lemma LaterIdsAvoidSeed(nodeID: int, data: SeedData, maxCounter: int, start: int, before: seq<Event>,
                          after: seq<Event>, i: int, k: int)
    requires IsMaxCounter(nodeID, Inserts(data), maxCounter)
    requires start >= 0 && Legal(Start(start), before)
    requires var s := Run(Start(start), before); CounterRaised(s, maxCounter) && Legal(s, after)
    requires var s := Run(Start(start), before);
             |s.issued| <= i < |Run(s, after).issued| && Run(s, after).issued[i].node == nodeID
    requires 0 <= k < |Inserts(data)| && BranchOf(Inserts(data)[k]) == Some(nodeID)
    ensures IdOf(Run(Run(Start(start), before), after).issued[i]) != IdOfRow(Inserts(data)[k])
  {
    var s := Run(Start(start), before);
    if maxCounter > 0 {
      var t :| t in s.setters && s.setters[t] == Setter(maxCounter, Returned);
      SetMinHolds(start, before, after, t);
    } else {
      InvAlways(start, Start(start), before);
      InvAlways(start, s, after);
    }
    assert SeedOp(Inserts(data)[k]);
  }
}
