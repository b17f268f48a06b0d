/** Spreading devices over engineers (distributeDevice in internal/service/ticket_service.go): the master
    gives a device to the engineer that has the fewest, over all branches. */
module Devices {
  import opened Common
  import opened Database
  import opened IdAllocation
  import opened Sharding
  import Query

  /** The devices an engineer has; an ID of zero stands for no engineer. */
  function CountFor(devices: seq<Dispositivo>, e: int): nat {
    if devices == [] then 0
    else CountFor(devices[..|devices| - 1], e) + (if devices[|devices| - 1].ingeniero == e then 1 else 0)
  }

  /** The devices an engineer counts with: those that name ID zero count for nobody. */
  function LoadOf(devices: seq<Dispositivo>, e: int): nat {
    if e == 0 then 0 else CountFor(devices, e)
  }

  function CountIn(counts: map<int, nat>, e: int): nat {
    if e in counts then counts[e] else 0
  }

  method CountDevices(devices: seq<Dispositivo>) returns (counts: map<int, nat>)
    ensures forall e :: CountIn(counts, e) == LoadOf(devices, e)
  {
    counts := map[];
    for i := 0 to |devices|
      invariant forall e :: CountIn(counts, e) == LoadOf(devices[..i], e)
    {
      assert devices[..i + 1][..i] == devices[..i];
      ghost var was := counts;
      var e := devices[i].ingeniero;
      if e != 0 {
        counts := counts[e := CountIn(counts, e) + 1];
      }
      forall f ensures CountIn(counts, f) == LoadOf(devices[..i + 1], f) {
        assert CountIn(was, f) == LoadOf(devices[..i], f);
      }
    }
    assert devices[..|devices|] == devices;
  }

  /** The first of the engineers with the fewest devices. */
  ghost predicate IsFirstLeast(engineers: seq<Ingeniero>, counts: map<int, nat>, k: nat) {
    && k < |engineers|
    && (forall j :: 0 <= j < |engineers| ==> CountIn(counts, engineers[k].id) <= CountIn(counts, engineers[j].id))
    && (forall j :: 0 <= j < k ==> CountIn(counts, engineers[k].id) < CountIn(counts, engineers[j].id))
  }

  /** There is only one such: of several engineers with equally few devices the one read first is picked. */
  lemma FirstLeastIsOne(engineers: seq<Ingeniero>, counts: map<int, nat>, j: nat, k: nat)
    requires IsFirstLeast(engineers, counts, j) && IsFirstLeast(engineers, counts, k)
    ensures j == k
  {
    assert CountIn(counts, engineers[j].id) == CountIn(counts, engineers[k].id);
  }

  method PickEngineer(engineers: seq<Ingeniero>, counts: map<int, nat>) returns (chosen: Option<Ingeniero>)
    ensures engineers == [] ==> chosen == None
    ensures engineers != [] ==> exists k: nat :: IsFirstLeast(engineers, counts, k) && chosen == Some(engineers[k])
  {
    chosen := None;
    var minCount: int := -1;
    ghost var k: nat := 0;
    for i := 0 to |engineers|
      invariant i == 0 ==> chosen == None && minCount == -1
      invariant i > 0 ==> IsFirstLeast(engineers[..i], counts, k) && chosen == Some(engineers[k])
                          && minCount == CountIn(counts, engineers[k].id)
    {
      var c := CountIn(counts, engineers[i].id);
      if minCount < 0 || c < minCount {
        minCount := c;
        chosen := Some(engineers[i]);
        k := i;
      }
    }
    assert engineers[..|engineers|] == engineers;
  }

  /** An engineer with the fewest devices gets the device; who of several depends on the order of the rows. */
  ghost predicate Least(engineers: seq<int>, devices: seq<Dispositivo>, e: int) {
    e in engineers && forall f :: f in engineers ==> CountFor(devices, e) <= CountFor(devices, f)
  }

  function Ids(engineers: seq<Ingeniero>): seq<int> {
    seq(|engineers|, i requires 0 <= i < |engineers| => engineers[i].id)
  }

  datatype Result<T> = Ok(value: T) | Err(message: string)

  /** One device: the rows are what the two reads returned, None for a failed one. */
  method DistributeDevice(engRows: Option<seq<Ingeniero>>, devRows: Option<seq<Dispositivo>>, nombre: string,
                          tipo: string, counter: int)
    returns (r: Result<Dispositivo>)
    ensures r.Ok? <==> engRows.Some? && devRows.Some? && engRows.value != []
    ensures r.Ok? ==>
              && (forall f :: f in engRows.value ==>
                    LoadOf(devRows.value, r.value.ingeniero) <= LoadOf(devRows.value, f.id))
              && exists e :: e in engRows.value
                   && r.value == Dispositivo(NewId(e.sucursal, counter), nombre, tipo, e.sucursal, e.id)
    ensures r.Ok? && 0 !in Ids(engRows.value) ==> Least(Ids(engRows.value), devRows.value, r.value.ingeniero)
  {
    if engRows.None? {
      return Err("query engineers");
    }
    if engRows.value == [] {
      return Err("no engineers available to assign device");
    }
    if devRows.None? {
      return Err("query devices");
    }
    var counts := CountDevices(devRows.value);
    var chosen := PickEngineer(engRows.value, counts);
    var e := chosen.value;
    ghost var k: nat :| IsFirstLeast(engRows.value, counts, k) && chosen == Some(engRows.value[k]);
    assert Ids(engRows.value)[k] == e.id;
    forall f | f in engRows.value ensures LoadOf(devRows.value, e.id) <= LoadOf(devRows.value, f.id) {
      var j :| 0 <= j < |engRows.value| && engRows.value[j] == f;
    }
    return Ok(Dispositivo(NewId(e.sucursal, counter), nombre, tipo, e.sucursal, e.id));
  }

  // ---- a series of assignments -------------------------------------------------------------------

  /** Each device goes to an engineer that has the fewest at that time. */
  ghost predicate Serial(engineers: seq<int>, devices: seq<Dispositivo>, more: seq<Dispositivo>)
    decreases |more|
  {
    more == [] ||
    (Least(engineers, devices, more[0].ingeniero) && Serial(engineers, devices + [more[0]], more[1..]))
  }

  /** No engineer has more than gap devices over another. */
  ghost predicate Within(engineers: seq<int>, devices: seq<Dispositivo>, gap: nat) {
    forall e, f {:trigger CountFor(devices, e), CountFor(devices, f)} ::
      e in engineers && f in engineers ==> CountFor(devices, e) <= CountFor(devices, f) + gap
  }

  lemma OneAssignment(devices: seq<Dispositivo>, d: Dispositivo, e: int)
    ensures CountFor(devices + [d], e) == CountFor(devices, e) + if d.ingeniero == e then 1 else 0
  {
    assert (devices + [d])[..|devices|] == devices;
  }

  lemma GapStep(engineers: seq<int>, devices: seq<Dispositivo>, d: Dispositivo, gap: nat)
    requires gap >= 1 && Within(engineers, devices, gap) && Least(engineers, devices, d.ingeniero)
    ensures Within(engineers, devices + [d], gap)
  {
    forall e, f | e in engineers && f in engineers
      ensures CountFor(devices + [d], e) <= CountFor(devices + [d], f) + gap {
      OneAssignment(devices, d, e);
      OneAssignment(devices, d, f);
      assert CountFor(devices, d.ingeniero) <= CountFor(devices, f);
    }
  }

  /** The gap between the most and the least loaded engineer never exceeds one, or what it was at first. */
  lemma {:induction false} GapNeverGrows(engineers: seq<int>, devices: seq<Dispositivo>, more: seq<Dispositivo>,
                                         gap: nat)
    requires Within(engineers, devices, gap) && Serial(engineers, devices, more)
    ensures Within(engineers, devices + more, if gap > 1 then gap else 1)
    decreases |more|
  {
    var bound := if gap > 1 then gap else 1;
    assert Within(engineers, devices, bound);
    if more == [] {
      assert devices + more == devices;
    } else {
      GapStep(engineers, devices, more[0], bound);
      GapNeverGrows(engineers, devices + [more[0]], more[1..], bound);
      assert devices + more == devices + [more[0]] + more[1..];
    }
  }

  // ---- how long it takes -------------------------------------------------------------------------

  /** What the engineers lack to be one below the top at most. */
  function Shortfall(engineers: seq<int>, devices: seq<Dispositivo>, top: nat): nat {
    if engineers == [] then 0
    else
      var c := CountFor(devices, engineers[0]);
      (if c + 1 < top then top - 1 - c else 0) + Shortfall(engineers[1..], devices, top)
  }

  ghost predicate IsTop(engineers: seq<int>, devices: seq<Dispositivo>, top: nat) {
    && (exists e :: e in engineers && CountFor(devices, e) == top)
    && (forall e :: e in engineers ==> CountFor(devices, e) <= top)
  }

  lemma {:induction false} NoShortfall(engineers: seq<int>, devices: seq<Dispositivo>, top: nat)
    ensures Shortfall(engineers, devices, top) == 0 <==> forall e :: e in engineers ==> CountFor(devices, e) + 1 >= top
    decreases |engineers|
  {
    if engineers == [] {
    } else {
      NoShortfall(engineers[1..], devices, top);
      assert engineers[0] in engineers;
      assert forall e :: e in engineers <==> e == engineers[0] || e in engineers[1..];
    }
  }

  lemma BalancedIff(engineers: seq<int>, devices: seq<Dispositivo>, top: nat)
    requires IsTop(engineers, devices, top)
    ensures Within(engineers, devices, 1) <==> Shortfall(engineers, devices, top) == 0
  {
    NoShortfall(engineers, devices, top);
    var e :| e in engineers && CountFor(devices, e) == top;
  }

  /** An assignment to an engineer below the mark takes one off the shortfall. */
  lemma {:induction false} ShortfallStep(engineers: seq<int>, devices: seq<Dispositivo>, d: Dispositivo, top: nat)
    requires Distinct(engineers)
    requires CountFor(devices, d.ingeniero) + 1 < top
    ensures Shortfall(engineers, devices, top)
            == Shortfall(engineers, devices + [d], top) + if d.ingeniero in engineers then 1 else 0
    decreases |engineers|
  {
    if engineers == [] {
    } else {
      ShortfallStep(engineers[1..], devices, d, top);
      OneAssignment(devices, d, engineers[0]);
      assert engineers[0] !in engineers[1..];
      assert d.ingeniero in engineers <==> d.ingeniero == engineers[0] || d.ingeniero in engineers[1..];
    }
  }

  lemma TopStays(engineers: seq<int>, devices: seq<Dispositivo>, d: Dispositivo, top: nat)
    requires IsTop(engineers, devices, top) && CountFor(devices, d.ingeniero) + 1 < top
    ensures IsTop(engineers, devices + [d], top)
  {
    var e :| e in engineers && CountFor(devices, e) == top;
    OneAssignment(devices, d, e);
    forall f | f in engineers ensures CountFor(devices + [d], f) <= top {
      OneAssignment(devices, d, f);
    }
  }

  /** A series of assignments makes the loads equal up to one exactly when it is at least as long as the
      shortfall it started with; no order of rows can make it faster or slower. */
  lemma {:induction false} BalancedExactlyAfter(engineers: seq<int>, devices: seq<Dispositivo>, more: seq<Dispositivo>,
                                                top: nat)
    requires Distinct(engineers) && IsTop(engineers, devices, top) && Serial(engineers, devices, more)
    ensures Within(engineers, devices + more, 1) <==> |more| >= Shortfall(engineers, devices, top)
    decreases |more|
  {
    BalancedIff(engineers, devices, top);
    if Shortfall(engineers, devices, top) == 0 {
      GapNeverGrows(engineers, devices, more, 1);
    } else if more == [] {
      assert devices + more == devices;
    } else {
      var d := more[0];
      NoShortfall(engineers, devices, top);
      assert CountFor(devices, d.ingeniero) + 1 < top;
      ShortfallStep(engineers, devices, d, top);
      TopStays(engineers, devices, d, top);
      BalancedExactlyAfter(engineers, devices + [d], more[1..], top);
      assert devices + more == devices + [d] + more[1..];
    }
  }

  /** The sum over all engineers of what they lack to the top. */
  function Deficit(engineers: seq<int>, devices: seq<Dispositivo>, top: nat): int {
    if engineers == [] then 0 else top - CountFor(devices, engineers[0]) + Deficit(engineers[1..], devices, top)
  }

  lemma {:induction false} ShortfallBound(engineers: seq<int>, devices: seq<Dispositivo>, top: nat)
    requires forall e :: e in engineers ==> CountFor(devices, e) <= top
    ensures Shortfall(engineers, devices, top) <= Deficit(engineers, devices, top)
    decreases |engineers|
  {
    if engineers == [] {
    } else {
      assert engineers[0] in engineers;
      ShortfallBound(engineers[1..], devices, top);
    }
  }

  /** After as many assignments as the engineers together lack to the most loaded one, loads differ by one
      at most. */
  lemma BalancedWithinDeficit(engineers: seq<int>, devices: seq<Dispositivo>, more: seq<Dispositivo>, top: nat)
    requires Distinct(engineers) && IsTop(engineers, devices, top) && Serial(engineers, devices, more)
    requires |more| >= Deficit(engineers, devices, top)
    ensures Within(engineers, devices + more, 1)
  {
    ShortfallBound(engineers, devices, top);
    BalancedExactlyAfter(engineers, devices, more, top);
  }

  // ---- assignments that are committed and read again --------------------------------------------------

  /** What ListAll returns of the devices while nothing changes: every row of the table once, in any order. */
  ghost predicate ListsDevices(t: Tables, rows: seq<Dispositivo>) {
    Query.Lists(t, "DISPOSITIVOS", seq(|rows|, i requires 0 <= i < |rows| => DispositivoRow(rows[i])))
  }

  /** The devices in the table that name the engineer. */
  function DevicesOf(t: Tables, e: int): set<int> {
    set id | id in t.dispositivos && t.dispositivos[id].ingeniero == e
  }

  ghost predicate DifferentIds(rows: seq<Dispositivo>) {
    forall i, j :: 0 <= i < j < |rows| ==> rows[i].id != rows[j].id
  }

  function IdsFor(rows: seq<Dispositivo>, e: int): set<int> {
    set d | d in rows && d.ingeniero == e :: d.id
  }

  lemma {:induction false} CountIsSize(rows: seq<Dispositivo>, e: int)
    requires DifferentIds(rows)
    ensures CountFor(rows, e) == |IdsFor(rows, e)|
    decreases |rows|
  {
    if rows == [] {
    } else {
      var init, last := rows[..|rows| - 1], rows[|rows| - 1];
      CountIsSize(init, e);
      assert rows == init + [last];
      if last.ingeniero == e {
        assert IdsFor(rows, e) == IdsFor(init, e) + {last.id};
        assert last.id !in IdsFor(init, e);
      } else {
        assert IdsFor(rows, e) == IdsFor(init, e);
      }
    }
  }

  lemma ListedRows(t: Tables, rows: seq<Dispositivo>)
    requires Keyed(t) && ListsDevices(t, rows)
    ensures DifferentIds(rows)
    ensures forall d :: d in rows ==> d.id in t.dispositivos && t.dispositivos[d.id] == d
    ensures forall id :: id in t.dispositivos ==> t.dispositivos[id] in rows && t.dispositivos[id].id == id
  {
    var all := seq(|rows|, i requires 0 <= i < |rows| => DispositivoRow(rows[i]));
    forall i | 0 <= i < |rows| ensures rows[i].id in t.dispositivos && t.dispositivos[rows[i].id] == rows[i] {
      assert all[i] in all && RowAt(t, Query.KeyOf(all[i])) == Some(all[i]);
    }
    forall i, j | 0 <= i < j < |rows| ensures rows[i].id != rows[j].id {
      assert all[i] != all[j];
    }
    forall id | id in t.dispositivos ensures t.dispositivos[id] in rows && t.dispositivos[id].id == id {
      var k := DispositivoKey(id);
      assert Query.TableOf(k) == "DISPOSITIVOS" && RowAt(t, k).Some?;
      var i :| 0 <= i < |all| && all[i] == RowAt(t, k).value;
      assert rows[i] == t.dispositivos[id];
    }
  }

  /** In whatever order the rows come, they count what the table holds. */
  lemma ReadCounts(t: Tables, rows: seq<Dispositivo>, e: int)
    requires Keyed(t) && ListsDevices(t, rows)
    ensures CountFor(rows, e) == |DevicesOf(t, e)|
  {
    ListedRows(t, rows);
    CountIsSize(rows, e);
    forall id | id in DevicesOf(t, e) ensures id in IdsFor(rows, e) {
      assert t.dispositivos[id] in rows;
    }
    assert IdsFor(rows, e) == DevicesOf(t, e);
  }

  lemma OneMoreDevice(t: Tables, d: Dispositivo, now: string, e: int)
    requires d.id !in t.dispositivos
    ensures |DevicesOf(Apply(InsertDispositivo(d), now, t), e)|
            == |DevicesOf(t, e)| + if e == d.ingeniero then 1 else 0
  {
    var after := Apply(InsertDispositivo(d), now, t);
    InsertsStoreWhatTheyCarry(InsertDispositivo(d), now, t);
    assert DevicesOf(after, e) == if e == d.ingeniero then DevicesOf(t, e) + {d.id} else DevicesOf(t, e);
  }

  /** Once a device has been committed, reading all devices again finds one more for the engineer it was given
      to, and for nobody else. */
  lemma CommitRaisesOneLoad(t: Tables, d: Dispositivo, now: string, before: seq<Dispositivo>, after: seq<Dispositivo>,
                            e: int)
    requires Keyed(t) && d.id !in t.dispositivos && ListsDevices(t, before)
    requires ListsDevices(Apply(InsertDispositivo(d), now, t), after)
    ensures LoadOf(after, e) == LoadOf(before, e) + if e == d.ingeniero && e != 0 then 1 else 0
  {
    StaysKeyed(InsertDispositivo(d), now, t);
    ReadCounts(t, before, e);
    ReadCounts(Apply(InsertDispositivo(d), now, t), after, e);
    OneMoreDevice(t, d, now, e);
  }

  /** A series of devices, each assigned by a read of its own and committed before the next one. */
  ghost predicate Committed(engineers: seq<int>, t: Tables, listings: seq<seq<Dispositivo>>, more: seq<Dispositivo>)
    requires |listings| == |more|
    decreases |more|
  {
    more == [] ||
    (&& ListsDevices(t, listings[0]) && Least(engineers, listings[0], more[0].ingeniero)
     && more[0].id !in t.dispositivos
     && Committed(engineers, Apply(InsertDispositivo(more[0]), "", t), listings[1..], more[1..]))
  }

  /** Such a series is one of the kind that GapNeverGrows and BalancedExactlyAfter speak of, though every read
      may list the devices in another order. */
  lemma {:induction false} CommittedIsSerial(engineers: seq<int>, t: Tables, listings: seq<seq<Dispositivo>>,
                                             more: seq<Dispositivo>, devices: seq<Dispositivo>)
    requires |listings| == |more| && Keyed(t) && Committed(engineers, t, listings, more)
    requires forall e :: CountFor(devices, e) == |DevicesOf(t, e)|
    ensures Serial(engineers, devices, more)
    decreases |more|
  {
    if more == [] {
    } else {
      var d, next := more[0], Apply(InsertDispositivo(more[0]), "", t);
      forall e ensures CountFor(listings[0], e) == CountFor(devices, e) {
        ReadCounts(t, listings[0], e);
      }
      forall e ensures CountFor(devices + [d], e) == |DevicesOf(next, e)| {
        OneAssignment(devices, d, e);
        OneMoreDevice(t, d, "", e);
      }
      StaysKeyed(InsertDispositivo(d), "", t);
      CommittedIsSerial(engineers, next, listings[1..], more[1..], devices + [d]);
    }
  }
}
