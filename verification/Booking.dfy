/** Raising and closing tickets over the distributed lock, the scatter-gather read and the commits
    (raiseTicket and CloseTicket in internal/service/ticket_service.go).

    The lock is the cluster of module LockCluster.  One step is one of its steps, one shard answering a
    query, the choice of an engineer, one attempt at a proposal of the raising node, one COMMIT reaching a
    node, or a ticket being closed.  An attempt may or may not be applied by its own node and may reach any
    peers: that covers success, a missing quorum and a handler that fails after the broadcast.  Attempts can
    be repeated, as Propose does. */
module Booking {
  import opened Common
  import opened Database
  import opened IdAllocation
  import opened LockEngine
  import L = LockCluster

  /** How far a request that holds the lock has got. */
  datatype Raise =
    | Reading(seen: seq<Ingeniero>)
    | Chosen(eng: int)
    | Inserted(ticket: int, eng: int)
    | Noted(ticket: int, eng: int)
    | Done(ticket: int, eng: int)
    | Nothing                            // no engineer, or an error before or in the insert

  datatype CommitMsg = CommitMsg(to: int, op: Op)

  datatype System = System(
    lock: L.Cluster,
    shards: map<int, Tables>,
    raises: map<ReqId, Raise>,
    commits: multiset<CommitMsg>,
    booked: map<int, int>,               // every ticket inserted so far, with its engineer
    closing: set<int>,                   // tickets with a committed CLOSE_TICKET under their own engineer
    freed: set<int>)                     // those whose engineer's shard has applied it

  datatype Event =
    | LockStep(ev: L.Event)
    | Read(r: ReqId, node: int, rows: seq<Ingeniero>)
    | Choose(r: ReqId)
    | Abandon(r: ReqId)
    | Insert(r: ReqId, id: int, usuario: int, dispositivo: int, now: string, applied: bool, targets: set<int>)
    | Note(r: ReqId, folio: string, applied: bool, targets: set<int>)
    | Mark(r: ReqId, applied: bool, targets: set<int>)
    | Finish(r: ReqId)
    | Arrive(m: CommitMsg, now: string)
    | Close(node: int, ticket: int, eng: int, now: string, applied: bool, targets: set<int>)
    | AddIngeniero(node: int, row: Ingeniero, applied: bool, targets: set<int>)
    | Reassign(node: int, moved: Ticket, applied: bool, targets: set<int>)

  // ---- what the steps do -----------------------------------------------------------------------

  predicate Active(s: System, r: ReqId) {
    r in s.lock.attempts && s.lock.attempts[r].phase == L.Held && s.lock.attempts[r].owner in s.shards
  }

  function RaiseOf(s: System, r: ReqId): Raise {
    if r in s.raises then s.raises[r] else Reading([])
  }

  /** The rows that a shard answers with: all of its engineers, in whatever order the table yields them. */
  ghost predicate Lists(rows: seq<Ingeniero>, table: map<int, Ingeniero>) {
    && |rows| == |table|
    && (forall i :: 0 <= i < |rows| ==> rows[i].id in table && table[rows[i].id] == rows[i])
    && (forall i, j :: 0 <= i < j < |rows| ==> rows[i].id != rows[j].id)
  }

  predicate IsFirstAvailable(rows: seq<Ingeniero>, k: nat) {
    k < |rows| && rows[k].disponible == 1 && forall j :: 0 <= j < k ==> rows[j].disponible != 1
  }

  lemma FirstOfRest(rows: seq<Ingeniero>)
    requires rows != [] && rows[0].disponible != 1
    ensures forall k: nat {:trigger IsFirstAvailable(rows[1..], k)} ::
              IsFirstAvailable(rows[1..], k) ==> IsFirstAvailable(rows, k + 1) && rows[k + 1] == rows[1..][k]
  {
  }

  /** The first available engineer among the collected rows. */
  function FirstAvailable(rows: seq<Ingeniero>): (found: Option<Ingeniero>)
    ensures found.Some? ==> exists k: nat :: IsFirstAvailable(rows, k) && found.value == rows[k]
    ensures found.None? ==> forall i :: 0 <= i < |rows| ==> rows[i].disponible != 1
  {
    if rows == [] then None
    else if rows[0].disponible == 1 then assert IsFirstAvailable(rows, 0); Some(rows[0])
    else FirstOfRest(rows); FirstAvailable(rows[1..])
  }

  lemma HeadIsFirst(rows: seq<Ingeniero>)
    requires rows != [] && rows[0].disponible == 1
    ensures FirstAvailable(rows) == Some(rows[0])
  {
  }

  /** The loop of raiseTicket. */
  method PickAvailable(rows: seq<Ingeniero>) returns (chosen: Option<Ingeniero>)
    ensures chosen == FirstAvailable(rows)
  {
    chosen := None;
    var i := 0;
    while i < |rows|
      invariant 0 <= i <= |rows|
      invariant chosen.None?
      invariant FirstAvailable(rows) == FirstAvailable(rows[i..])
    {
      if rows[i].disponible == 1 {
        chosen := Some(rows[i]);
        break;
      }
      i := i + 1;
    }
  }

  function Messages(op: Op, targets: set<int>): multiset<CommitMsg> {
    multiset(set n | n in targets :: CommitMsg(n, op))
  }

  predicate BookedFor(s: System, t: int, e: int) {
    t in s.booked && s.booked[t] == e
  }

  /** Node n applies a committed operation. */
  function Applied(s: System, n: int, op: Op, now: string): System
    requires n in s.shards
  {
    s.(shards := s.shards[n := ApplyAt(n, op, now, s.shards[n])],
       freed := if op.CloseTicket? && n == HomeOf(op.idIngeniero) && BookedFor(s, op.idTicket, op.idIngeniero)
                then s.freed + {op.idTicket} else s.freed)
  }

  /** doCommit of node n: the COMMIT goes out and the node's own handler runs. */
  function Committed(s: System, n: int, op: Op, now: string, applied: bool, targets: set<int>): System
    requires n in s.shards
  {
    var t := s.(commits := s.commits + Messages(op, targets));
    if applied then Applied(t, n, op, now) else t
  }

  predicate Peers(s: System, n: int, targets: set<int>) {
    n in s.shards && n !in targets && targets <= s.shards.Keys
  }

  ghost predicate Enabled(s: System, ev: Event) {
    match ev
    case LockStep(e) => !e.LetGo? && L.Enabled(s.lock, e)
    case Read(r, node, rows) =>
      Active(s, r) && RaiseOf(s, r).Reading? && node in s.shards && Lists(rows, s.shards[node].ingenieros)
    case Choose(r) => Active(s, r) && RaiseOf(s, r).Reading?
    case Abandon(r) => Active(s, r) && (RaiseOf(s, r).Reading? || RaiseOf(s, r).Chosen?)
    case Insert(r, id, _, _, _, _, targets) =>
      && Active(s, r) && RaiseOf(s, r).Chosen? && Peers(s, s.lock.attempts[r].owner, targets)
      && id !in s.booked && HomeOf(id) == s.lock.attempts[r].owner
    case Note(r, _, _, targets) =>
      && Active(s, r) && (RaiseOf(s, r).Inserted? || RaiseOf(s, r).Noted?)
      && Peers(s, s.lock.attempts[r].owner, targets)
    case Mark(r, _, targets) =>
      && Active(s, r) && (RaiseOf(s, r).Noted? || RaiseOf(s, r).Done?)
      && Peers(s, s.lock.attempts[r].owner, targets)
    case Finish(r) =>
      && Active(s, r) && (RaiseOf(s, r).Done? || RaiseOf(s, r).Nothing?)
      && L.Enabled(s.lock, L.LetGo(r))
    case Arrive(m, _) => m in s.commits && m.to in s.shards
    case Close(node, _, _, _, _, targets) => Peers(s, node, targets)
    case AddIngeniero(node, row, _, targets) =>
      Peers(s, node, targets) && row.sucursal == node && HomeOf(row.id) == node
    case Reassign(node, _, _, targets) => Peers(s, node, targets)
  }

  function At(s: System, r: ReqId, raise: Raise): System {
    s.(raises := s.raises[r := raise])
  }

  function Inserting(s: System, r: ReqId, id: int, usuario: int, dispositivo: int, now: string,
                     applied: bool, targets: set<int>): System
    requires Active(s, r) && RaiseOf(s, r).Chosen?
  {
    var n, eng := s.lock.attempts[r].owner, RaiseOf(s, r).eng;
    var row := Ticket(id, usuario, eng, n, dispositivo, ABIERTO, "", now, "");
    var t := Committed(s, n, InsertTicket(row), now, applied, targets);
    if applied then At(t.(booked := t.booked[id := eng]), r, Inserted(id, eng)) else t
  }

  function Closing(s: System, node: int, ticket: int, eng: int, now: string, applied: bool, targets: set<int>): System
    requires node in s.shards
  {
    var t := if (applied || targets != {}) && BookedFor(s, ticket, eng) then s.(closing := s.closing + {ticket}) else s;
    Committed(t, node, CloseTicket(ticket, eng), now, applied, targets)
  }

  function Next(s: System, ev: Event): System
    requires Enabled(s, ev)
  {
    match ev
    case LockStep(e) => s.(lock := L.Next(s.lock, e))
    case Read(r, _, rows) => At(s, r, Reading(RaiseOf(s, r).seen + rows))
    case Choose(r) =>
      var found := FirstAvailable(RaiseOf(s, r).seen);
      At(s, r, if found.Some? then Chosen(found.value.id) else Nothing)
    case Abandon(r) => At(s, r, Nothing)
    case Insert(r, id, u, d, now, applied, targets) => Inserting(s, r, id, u, d, now, applied, targets)
    case Note(r, folio, applied, targets) =>
      var at := RaiseOf(s, r);
      At(Committed(s, s.lock.attempts[r].owner, UpdateTicketFolio(at.ticket, folio), "", applied, targets),
         r, Noted(at.ticket, at.eng))
    case Mark(r, applied, targets) =>
      var at := RaiseOf(s, r);
      At(Committed(s, s.lock.attempts[r].owner, UpdateDisponible(at.eng, 0), "", applied, targets),
         r, Done(at.ticket, at.eng))
    case Finish(r) => s.(lock := L.Next(s.lock, L.LetGo(r)))
    case Arrive(m, now) => Applied(s.(commits := s.commits - multiset{m}), m.to, m.op, now)
    case Close(node, t, e, now, applied, targets) => Closing(s, node, t, e, now, applied, targets)
    case AddIngeniero(node, row, applied, targets) => Committed(s, node, InsertIngeniero(row), "", applied, targets)
    case Reassign(node, moved, applied, targets) => Committed(s, node, ReassignTicket(moved), "", applied, targets)
  }

  ghost predicate Init(s: System, m: int) {
    && L.Init(s.lock)
    && (forall n :: n in s.lock.master ==> s.lock.master[n] == m)
    && s.lock.engines.Keys == s.shards.Keys
    && s.raises == map[] && s.commits == multiset{} && s.booked == map[] && s.closing == {} && s.freed == {}
    && forall n :: n in s.shards ==>
         && s.shards[n].tickets == map[]
         && EngineersAt(s, n)
  }

  ghost predicate EngineersAt(s: System, n: int)
    requires n in s.shards
  {
    forall e :: e in s.shards[n].ingenieros ==>
      HomeOf(e) == n && s.shards[n].ingenieros[e].id == e && s.shards[n].ingenieros[e].sucursal == n
  }

  /** The engineer's shard knows the engineer and calls him available. */
  predicate Available(s: System, e: int) {
    && HomeOf(e) in s.shards
    && e in s.shards[HomeOf(e)].ingenieros
    && s.shards[HomeOf(e)].ingenieros[e].disponible == 1
  }

  /** What the code does not enforce, but double booking hinges on: a raise lets go of the lock only when its
      engineer is unavailable at his own shard (or the ticket's close has been there already), a ticket is
      closed once and under its own engineer, the master stays, and nothing is reassigned. */
  predicate Orderly(s: System, ev: Event) {
    match ev
    case LockStep(e) => !e.ChangeMaster?
    case Finish(r) => RaiseOf(s, r).Done? ==> RaiseOf(s, r).ticket in s.freed || !Available(s, RaiseOf(s, r).eng)
    case Close(_, t, e, _, _, _) => t in s.booked && s.booked[t] == e && t !in s.closing
    case Reassign(_, _, _, _) => false
    case _ => true
  }

  ghost predicate Legal(s: System, evs: seq<Event>)
    decreases |evs|
  {
    evs == [] || (Enabled(s, evs[0]) && Legal(Next(s, evs[0]), evs[1..]))
  }

  function Run(s: System, evs: seq<Event>): System
    requires Legal(s, evs)
    decreases |evs|
  {
    if evs == [] then s else Run(Next(s, evs[0]), evs[1..])
  }

  ghost predicate AlwaysOrderly(s: System, evs: seq<Event>)
    requires Legal(s, evs)
    decreases |evs|
  {
    evs == [] || (Orderly(s, evs[0]) && AlwaysOrderly(Next(s, evs[0]), evs[1..]))
  }

  // ---- the invariant ---------------------------------------------------------------------------

  predicate Live(s: System, t: int) {
    t in s.booked && t !in s.freed
  }

  /** A known engineer without a live ticket. */
  ghost predicate Free(s: System, e: int) {
    && HomeOf(e) in s.shards && e in s.shards[HomeOf(e)].ingenieros
    && forall t {:trigger s.booked[t]} :: Live(s, t) ==> s.booked[t] != e
  }

  /** A raise that has inserted t and still has the lock. */
  ghost predicate Owns(s: System, r: ReqId, t: int) {
    var at := RaiseOf(s, r);
    Active(s, r) && (at.Inserted? || at.Noted? || at.Done?) && at.ticket == t
  }

  ghost predicate InWindow(s: System, t: int) {
    exists r {:trigger Owns(s, r, t)} :: Owns(s, r, t)
  }

  ghost predicate TicketsAt(s: System, n: int)
    requires n in s.shards
  {
    forall t :: t in s.shards[n].tickets ==>
      && HomeOf(t) == n && t in s.booked && s.shards[n].tickets[t].ingeniero == s.booked[t]
      && s.shards[n].tickets[t].id == t && s.shards[n].tickets[t].sucursal == n
  }

  /** The engineer of a live ticket is unavailable, unless the raise that booked him is still at work. */
  ghost predicate LiveOk(s: System, t: int)
    requires t in s.booked
  {
    Live(s, t) ==>
      var e := s.booked[t];
      && HomeOf(e) in s.shards && e in s.shards[HomeOf(e)].ingenieros
      && (Available(s, e) ==> InWindow(s, t))
  }

  ghost predicate OneLivePerEngineer(s: System) {
    forall t, u {:trigger s.booked[t], s.booked[u]} ::
      Live(s, t) && Live(s, u) && s.booked[t] == s.booked[u] ==> t == u
  }

  /** An engineer that the holder of the lock has seen available, or has chosen, is free. */
  ghost predicate RaiseOk(s: System, r: ReqId) {
    match RaiseOf(s, r)
    case Reading(seen) => forall i :: 0 <= i < |seen| && seen[i].disponible == 1 ==> Free(s, seen[i].id)
    case Chosen(e) => Free(s, e)
    case Inserted(t, e) => t in s.booked && s.booked[t] == e
    case Noted(t, e) => t in s.booked && s.booked[t] == e
    case Done(t, e) => t in s.booked && s.booked[t] == e
    case Nothing => true
  }

  ghost predicate CommitOk(s: System, m: CommitMsg)
    requires m in s.commits
  {
    && m.to in s.shards
    && match m.op
       case CloseTicket(t, e) =>
         m.to == HomeOf(e) ==> Live(s, t) && s.booked[t] == e && t in s.closing && s.commits[m] == 1
       case UpdateDisponible(_, d) => d == 0
       case UpdateTicketFolio(_, _) => true
       case InsertTicket(row) => row.sucursal != m.to
       case InsertIngeniero(row) => row.sucursal != m.to
       case _ => false
  }

  ghost predicate Started(s: System, r: ReqId) {
    r in s.lock.attempts && (s.lock.attempts[r].phase == L.Held || s.lock.attempts[r].phase == L.Released)
  }

  ghost predicate LockOk(s: System, m: int) {
    && L.Inv(s.lock) && L.OneMaster(s.lock, m)
    && s.lock.engines.Keys == s.shards.Keys
    && forall r {:trigger Started(s, r)} :: r in s.raises ==> Started(s, r)
  }

  ghost predicate ShardsOk(s: System) {
    && (forall n {:trigger EngineersAt(s, n)} :: n in s.shards ==> EngineersAt(s, n))
    && (forall n {:trigger TicketsAt(s, n)} :: n in s.shards ==> TicketsAt(s, n))
  }

  ghost predicate BookingOk(s: System) {
    && (forall t {:trigger LiveOk(s, t)} :: t in s.booked ==> LiveOk(s, t))
    && OneLivePerEngineer(s)
    && s.freed <= s.closing && s.closing <= s.booked.Keys
  }

  ghost predicate RaisesOk(s: System) {
    forall r {:trigger RaiseOk(s, r)} :: Active(s, r) ==> RaiseOk(s, r)
  }

  ghost predicate CommitsOk(s: System) {
    forall m {:trigger CommitOk(s, m)} :: m in s.commits ==> CommitOk(s, m)
  }

  ghost predicate Inv(s: System, m: int) {
    LockOk(s, m) && ShardsOk(s) && BookingOk(s) && RaisesOk(s) && CommitsOk(s)
  }

  lemma OneActive(s: System, m: int, r1: ReqId, r2: ReqId)
    requires LockOk(s, m) && Active(s, r1) && Active(s, r2)
    ensures r1 == r2
  {
    L.AtMostOneHeld(s.lock, m, r1, r2);
  }

  // ---- what a step does not touch ----------------------------------------------------------------

  ghost predicate KeepsEngineers(s: System, d: System) {
    && d.shards.Keys == s.shards.Keys
    && forall n {:trigger EngineersAt(d, n)} {:trigger EngineersAt(s, n)} :: n in s.shards ==>
         d.shards[n].ingenieros.Keys >= s.shards[n].ingenieros.Keys
  }

  /** No ticket comes to life, no engineer disappears or becomes available again with a live ticket. */
  ghost predicate Calmer(s: System, d: System) {
    && d.lock == s.lock
    && d.booked == s.booked && d.freed >= s.freed && d.closing >= s.closing
    && d.shards.Keys == s.shards.Keys
    && forall e {:trigger Available(d, e)} {:trigger Free(d, e)} :: HomeOf(e) in s.shards ==>
         && (e in s.shards[HomeOf(e)].ingenieros ==> e in d.shards[HomeOf(e)].ingenieros)
         && (Available(d, e) && !Available(s, e) ==>
               forall t {:trigger Live(d, t)} :: Live(d, t) ==> d.booked[t] != e)
  }

  lemma FreeFrame(s: System, d: System, e: int)
    requires Calmer(s, d) && Free(s, e)
    ensures Free(d, e)
  {
    assert Available(d, e) || !Available(d, e);
  }

  lemma RaiseFrame(s: System, d: System, r: ReqId)
    requires Calmer(s, d) && RaiseOk(s, r) && RaiseOf(d, r) == RaiseOf(s, r)
    ensures RaiseOk(d, r)
  {
    match RaiseOf(s, r)
    case Reading(seen) =>
      forall i | 0 <= i < |seen| && seen[i].disponible == 1 ensures Free(d, seen[i].id) {
        FreeFrame(s, d, seen[i].id);
      }
    case Chosen(e) => FreeFrame(s, d, e);
    case _ =>
  }

  lemma LiveFrame(s: System, d: System, t: int)
    requires Calmer(s, d) && t in s.booked && LiveOk(s, t)
    requires forall r {:trigger Owns(d, r, t)} :: Owns(s, r, t) ==> Owns(d, r, t)
    ensures LiveOk(d, t)
  {
    if Live(d, t) {
      assert Live(s, t);
      var e := s.booked[t];
      if Available(d, e) {
        assert Available(s, e);
        var r :| Owns(s, r, t);
        assert Owns(d, r, t);
      }
    }
  }

  /** A step that is calmer and leaves the raises alone keeps bookings and raises in order. */
  lemma CalmerKeeps(s: System, d: System)
    requires Calmer(s, d) && d.raises == s.raises && BookingOk(s) && RaisesOk(s)
    requires d.freed <= d.closing && d.closing <= d.booked.Keys
    ensures BookingOk(d) && RaisesOk(d)
  {
    forall t | t in d.booked ensures LiveOk(d, t) {
      assert LiveOk(s, t);
      forall r | Owns(s, r, t) ensures Owns(d, r, t) {
      }
      LiveFrame(s, d, t);
    }
    forall r | Active(d, r) ensures RaiseOk(d, r) {
      assert Active(s, r);
      assert RaiseOk(s, r);
      RaiseFrame(s, d, r);
    }
  }

  // ---- commits reaching a shard -------------------------------------------------------------------

  /** What a committed operation must satisfy for the shard of node n to stay in order. */
  ghost predicate Harmless(s: System, n: int, op: Op) {
    match op
    case CloseTicket(t, e) =>
      n == HomeOf(e) ==>
        && (BookedFor(s, t, e) ==> t in s.closing)
        && forall u {:trigger s.booked[u]} :: Live(s, u) && s.booked[u] == e ==> u == t
    case UpdateDisponible(_, d) => d == 0
    case UpdateTicketFolio(_, _) => true
    case InsertTicket(row) => row.sucursal != n
    case InsertIngeniero(row) => row.sucursal == n ==> HomeOf(row.id) == n
    case _ => false
  }

  lemma AppliedIsCalmer(s: System, n: int, op: Op, now: string)
    requires ShardsOk(s) && BookingOk(s) && n in s.shards && Harmless(s, n, op)
    ensures Calmer(s, Applied(s, n, op, now))
  {
    var d := Applied(s, n, op, now);
    assert EngineersAt(s, n);
    forall e | HomeOf(e) in s.shards
      ensures e in s.shards[HomeOf(e)].ingenieros ==> e in d.shards[HomeOf(e)].ingenieros
      ensures Available(d, e) && !Available(s, e) ==> forall t {:trigger Live(d, t)} :: Live(d, t) ==> d.booked[t] != e
    {
      if Available(d, e) && !Available(s, e) {
        assert HomeOf(e) == n;
        forall t | Live(d, t) ensures d.booked[t] != e {
          assert LiveOk(s, t);
          assert Live(s, t);
        }
      }
    }
  }

  lemma AppliedKeepsShards(s: System, n: int, op: Op, now: string)
    requires ShardsOk(s) && n in s.shards && Harmless(s, n, op)
    ensures ShardsOk(Applied(s, n, op, now))
  {
    var d := Applied(s, n, op, now);
    forall k | k in d.shards ensures EngineersAt(d, k) && TicketsAt(d, k) {
      assert EngineersAt(s, k) && TicketsAt(s, k);
    }
  }

  lemma AppliedKeepsCommits(s: System, n: int, op: Op, now: string)
    requires CommitsOk(s) && n in s.shards
    requires op.CloseTicket? && n == HomeOf(op.idIngeniero) ==> CommitMsg(n, op) !in s.commits
    ensures CommitsOk(Applied(s, n, op, now))
  {
    var d := Applied(s, n, op, now);
    forall m | m in d.commits ensures CommitOk(d, m) {
      assert CommitOk(s, m);
    }
  }

  /** A node applies an operation that nobody else still has to deliver to the same engineer. */
  lemma AppliedKeeps(s: System, m: int, n: int, op: Op, now: string)
    requires Inv(s, m) && n in s.shards && Harmless(s, n, op)
    requires op.CloseTicket? && n == HomeOf(op.idIngeniero) ==> CommitMsg(n, op) !in s.commits
    ensures Inv(Applied(s, n, op, now), m)
  {
    var d := Applied(s, n, op, now);
    AppliedIsCalmer(s, n, op, now);
    CalmerKeeps(s, d);
    AppliedKeepsShards(s, n, op, now);
    AppliedKeepsCommits(s, n, op, now);
    forall r | r in d.raises ensures Started(d, r) {
      assert Started(s, r);
    }
  }

  lemma ArriveKeeps(s: System, m: int, msg: CommitMsg, now: string)
    requires Inv(s, m) && msg in s.commits && msg.to in s.shards
    ensures Inv(Applied(s.(commits := s.commits - multiset{msg}), msg.to, msg.op, now), m)
  {
    var b := s.(commits := s.commits - multiset{msg});
    assert CommitOk(s, msg);
    SameBut(s, b, m);
    forall x | x in b.commits ensures CommitOk(b, x) {
      assert CommitOk(s, x);
    }
    AppliedKeeps(b, m, msg.to, msg.op, now);
  }

  /** The messages in flight matter to CommitsOk only. */
  lemma SameBut(s: System, d: System, m: int)
    requires Inv(s, m) && d == s.(commits := d.commits)
    ensures LockOk(d, m) && ShardsOk(d) && BookingOk(d) && RaisesOk(d)
  {
    assert Calmer(s, d);
    CalmerKeeps(s, d);
    forall r | r in d.raises ensures Started(d, r) {
      assert Started(s, r);
    }
    forall n | n in d.shards ensures EngineersAt(d, n) && TicketsAt(d, n) {
      assert EngineersAt(s, n) && TicketsAt(s, n);
    }
  }

  /** What node n commits is applied by node h, now or when it arrives there. */
  predicate GetsTo(n: int, applied: bool, targets: set<int>, h: int) {
    (n == h && applied) || h in targets
  }

  /** Ticket t keeps engineer e busy, and no close of it is on its way to his branch. */
  predicate CloseIsDue(s: System, t: int, e: int) {
    Live(s, t) && s.booked[t] == e && CommitMsg(HomeOf(e), CloseTicket(t, e)) !in s.commits
  }

  /** A proposal of node n is committed. */
  lemma CommittedKeeps(s: System, m: int, n: int, op: Op, now: string, applied: bool, targets: set<int>)
    requires Inv(s, m) && Peers(s, n, targets) && (Harmless(s, n, op) || op.CloseTicket?)
    requires !op.InsertTicket? && (op.InsertIngeniero? ==> op.ingeniero.sucursal == n)
    requires op.CloseTicket? && GetsTo(n, applied, targets, HomeOf(op.idIngeniero)) ==>
               CloseIsDue(s, op.idTicket, op.idIngeniero) && op.idTicket in s.closing
    ensures Inv(Committed(s, n, op, now, applied, targets), m)
  {
    var b := s.(commits := s.commits + Messages(op, targets));
    SameBut(s, b, m);
    forall x | x in b.commits ensures CommitOk(b, x) {
      if x in s.commits {
        assert CommitOk(s, x);
      }
      if x in Messages(op, targets) {
        assert x.op == op && x.to in targets && Messages(op, targets)[x] == 1;
      }
    }
    if applied {
      assert CommitMsg(n, op) !in Messages(op, targets);
      AppliedKeeps(b, m, n, op, now);
    }
  }

  // ---- the raising request ------------------------------------------------------------------------

  /** The holder of the lock gets further without losing sight of the ticket it owns. */
  lemma AtKeeps(s: System, m: int, r: ReqId, at: Raise)
    requires Inv(s, m) && Active(s, r)
    requires RaiseOk(At(s, r, at), r)
    requires forall t {:trigger Owns(s, r, t)} :: Owns(s, r, t) ==> Owns(At(s, r, at), r, t)
    ensures Inv(At(s, r, at), m)
  {
    var d := At(s, r, at);
    forall t | t in d.booked ensures LiveOk(d, t) {
      assert LiveOk(s, t);
      if Live(s, t) && Available(s, s.booked[t]) {
        var q :| Owns(s, q, t);
        OneActive(s, m, q, r);
        assert Owns(d, r, t);
      }
    }
    forall q | Active(d, q) ensures RaiseOk(d, q) {
      OneActive(s, m, q, r);
    }
    forall q | q in d.raises ensures Started(d, q) {
      assert q != r ==> Started(s, q);
    }
    forall n | n in d.shards ensures EngineersAt(d, n) && TicketsAt(d, n) {
      assert EngineersAt(s, n) && TicketsAt(s, n);
    }
    forall x | x in d.commits ensures CommitOk(d, x) {
      assert CommitOk(s, x);
    }
  }

  /** An engineer who is available while the holder of the lock is still reading is free. */
  lemma AvailableIsFree(s: System, m: int, r: ReqId, e: int)
    requires Inv(s, m) && Active(s, r) && RaiseOf(s, r).Reading? && Available(s, e)
    ensures Free(s, e)
  {
    forall t | Live(s, t) ensures s.booked[t] != e {
      assert LiveOk(s, t);
      if s.booked[t] == e {
        var q :| Owns(s, q, t);
        OneActive(s, m, q, r);
      }
    }
  }

  lemma ReadKeeps(s: System, m: int, r: ReqId, node: int, rows: seq<Ingeniero>)
    requires Inv(s, m) && Enabled(s, Read(r, node, rows))
    ensures Inv(At(s, r, Reading(RaiseOf(s, r).seen + rows)), m)
  {
    var seen := RaiseOf(s, r).seen;
    var d := At(s, r, Reading(seen + rows));
    assert RaiseOk(s, r);
    assert EngineersAt(s, node);
    forall i | 0 <= i < |seen + rows| && (seen + rows)[i].disponible == 1 ensures Free(d, (seen + rows)[i].id) {
      if i < |seen| {
        assert Free(s, seen[i].id);
        assert Free(d, seen[i].id);
      } else {
        var row := rows[i - |seen|];
        assert Available(s, row.id);
        AvailableIsFree(s, m, r, row.id);
        assert Free(d, row.id);
      }
    }
    AtKeeps(s, m, r, Reading(seen + rows));
  }

  lemma ChooseKeeps(s: System, m: int, r: ReqId)
    requires Inv(s, m) && Enabled(s, Choose(r))
    ensures Inv(Next(s, Choose(r)), m)
  {
    var found := FirstAvailable(RaiseOf(s, r).seen);
    assert RaiseOk(s, r);
    if found.Some? {
      assert Free(s, found.value.id);
      assert Free(At(s, r, Chosen(found.value.id)), found.value.id);
    }
    AtKeeps(s, m, r, if found.Some? then Chosen(found.value.id) else Nothing);
  }

  lemma NoteKeeps(s: System, m: int, r: ReqId, folio: string, applied: bool, targets: set<int>)
    requires Inv(s, m) && Enabled(s, Note(r, folio, applied, targets))
    ensures Inv(Next(s, Note(r, folio, applied, targets)), m)
  {
    var at, n := RaiseOf(s, r), s.lock.attempts[r].owner;
    var op := UpdateTicketFolio(at.ticket, folio);
    assert RaiseOk(s, r);
    CommittedKeeps(s, m, n, op, "", applied, targets);
    var b := Committed(s, n, op, "", applied, targets);
    assert RaiseOk(At(b, r, Noted(at.ticket, at.eng)), r);
    AtKeeps(b, m, r, Noted(at.ticket, at.eng));
  }

  lemma MarkKeeps(s: System, m: int, r: ReqId, applied: bool, targets: set<int>)
    requires Inv(s, m) && Enabled(s, Mark(r, applied, targets))
    ensures Inv(Next(s, Mark(r, applied, targets)), m)
  {
    var at, n := RaiseOf(s, r), s.lock.attempts[r].owner;
    var op := UpdateDisponible(at.eng, 0);
    assert RaiseOk(s, r);
    CommittedKeeps(s, m, n, op, "", applied, targets);
    var b := Committed(s, n, op, "", applied, targets);
    assert RaiseOk(At(b, r, Done(at.ticket, at.eng)), r);
    AtKeeps(b, m, r, Done(at.ticket, at.eng));
  }

  // ---- the insert ----------------------------------------------------------------------------------

  /** Request r, at node n, has just inserted ticket id for engineer e. */
  ghost predicate JustInserted(s: System, d: System, r: ReqId, n: int, id: int, e: int) {
    && d.lock == s.lock && d.freed == s.freed && d.closing == s.closing
    && d.booked == s.booked[id := e]
    && d.raises == s.raises[r := Inserted(id, e)]
    && n in s.shards && d.shards.Keys == s.shards.Keys
    && (forall k {:trigger d.shards[k]} :: k in s.shards ==> d.shards[k].ingenieros == s.shards[k].ingenieros)
    && (forall k {:trigger d.shards[k]} :: k in s.shards && k != n ==> d.shards[k].tickets == s.shards[k].tickets)
    && (exists row: Ticket :: row.id == id && row.ingeniero == e && row.sucursal == n
          && d.shards[n].tickets == s.shards[n].tickets[id := row])
  }

  lemma InsertInserts(s: System, m: int, r: ReqId, id: int, u: int, dv: int, now: string, targets: set<int>)
    requires Inv(s, m) && Enabled(s, Insert(r, id, u, dv, now, true, targets))
    ensures JustInserted(s, Inserting(s, r, id, u, dv, now, true, targets), r,
                         s.lock.attempts[r].owner, id, RaiseOf(s, r).eng)
  {
    var n, e := s.lock.attempts[r].owner, RaiseOf(s, r).eng;
    var row := Ticket(id, u, e, n, dv, ABIERTO, "", now, "");
    assert TicketsAt(s, n);
    assert row.ingeniero == e;
    assert Inserting(s, r, id, u, dv, now, true, targets).shards[n].tickets == s.shards[n].tickets[id := row];
  }

  lemma BookedIsUnavailable(s: System, m: int, r: ReqId, t: int)
    requires Inv(s, m) && Active(s, r) && RaiseOf(s, r).Chosen? && Live(s, t)
    ensures HomeOf(s.booked[t]) in s.shards && s.booked[t] in s.shards[HomeOf(s.booked[t])].ingenieros
    ensures !Available(s, s.booked[t])
  {
    assert LiveOk(s, t);
    if Available(s, s.booked[t]) {
      var q :| Owns(s, q, t);
      OneActive(s, m, q, r);
    }
  }

  lemma InsertKeepsBookings(s: System, d: System, m: int, r: ReqId, n: int, id: int, e: int)
    requires Inv(s, m) && Active(s, r) && RaiseOf(s, r) == Chosen(e) && id !in s.booked
    requires JustInserted(s, d, r, n, id, e)
    ensures BookingOk(d)
  {
    assert RaiseOk(s, r);
    forall t | t in d.booked ensures LiveOk(d, t) {
      if t == id {
        assert Owns(d, r, id);
      } else if Live(s, t) {
        BookedIsUnavailable(s, m, r, t);
      }
    }
    forall t, x | Live(d, t) && Live(d, x) && d.booked[t] == d.booked[x] ensures t == x {
      assert t != id && x != id ==> s.booked[t] == s.booked[x];
    }
  }

  lemma InsertKeepsShards(s: System, d: System, m: int, r: ReqId, n: int, id: int, e: int)
    requires Inv(s, m) && id !in s.booked && HomeOf(id) == n
    requires JustInserted(s, d, r, n, id, e)
    ensures ShardsOk(d)
  {
    forall k | k in d.shards ensures EngineersAt(d, k) && TicketsAt(d, k) {
      assert EngineersAt(s, k) && TicketsAt(s, k);
      assert d.shards[k].ingenieros == s.shards[k].ingenieros;
    }
  }

  lemma InsertKeeps(s: System, m: int, r: ReqId, id: int, u: int, dv: int, now: string, targets: set<int>)
    requires Inv(s, m) && Enabled(s, Insert(r, id, u, dv, now, true, targets))
    ensures Inv(Inserting(s, r, id, u, dv, now, true, targets), m)
  {
    var d := Inserting(s, r, id, u, dv, now, true, targets);
    var n, e := s.lock.attempts[r].owner, RaiseOf(s, r).eng;
    InsertInserts(s, m, r, id, u, dv, now, targets);
    InsertKeepsBookings(s, d, m, r, n, id, e);
    InsertKeepsShards(s, d, m, r, n, id, e);
    forall q | Active(d, q) ensures RaiseOk(d, q) {
      OneActive(s, m, q, r);
    }
    forall q | q in d.raises ensures Started(d, q) {
      assert q != r ==> Started(s, q);
    }
    forall x | x in d.commits ensures CommitOk(d, x) {
      if x in s.commits {
        assert CommitOk(s, x);
      }
    }
  }

  /** The insert is not applied: what may still be in flight is not addressed to its receivers. */
  lemma InsertFailedKeeps(s: System, m: int, r: ReqId, id: int, u: int, dv: int, now: string, targets: set<int>)
    requires Inv(s, m) && Enabled(s, Insert(r, id, u, dv, now, false, targets))
    ensures Inv(Inserting(s, r, id, u, dv, now, false, targets), m)
  {
    var n := s.lock.attempts[r].owner;
    var op := InsertTicket(Ticket(id, u, RaiseOf(s, r).eng, n, dv, ABIERTO, "", now, ""));
    var b := s.(commits := s.commits + Messages(op, targets));
    SameBut(s, b, m);
    forall x | x in b.commits ensures CommitOk(b, x) {
      if x in s.commits {
        assert CommitOk(s, x);
      }
    }
  }

  // ---- lock steps ----------------------------------------------------------------------------------

  /** An attempt keeps its owner; what holds the lock holds it or has released it; a release is final. */
  ghost predicate MovedAt(c: L.Cluster, d: L.Cluster, q: ReqId)
    requires q in c.attempts
  {
    && q in d.attempts
    && d.attempts[q].owner == c.attempts[q].owner
    && (c.attempts[q].phase == L.Released ==> d.attempts[q].phase == L.Released)
    && (c.attempts[q].phase == L.Held ==> d.attempts[q].phase == L.Held || d.attempts[q].phase == L.Released)
  }

  lemma StepMoves(c: L.Cluster, ev: L.Event, q: ReqId)
    requires L.Enabled(c, ev) && q in c.attempts
    ensures L.Next(c, ev).engines.Keys == c.engines.Keys
    ensures MovedAt(c, L.Next(c, ev), q)
    ensures c.attempts[q].phase == L.Held ==> (L.Next(c, ev).attempts[q].phase == L.Released <==> ev == L.LetGo(q))
  {
    SameNodes(c, ev);
    match ev
    case LetGo(r) => LeaveMoves(c, r);
    case Deliver(m) => ReceiveMoves(L.Taken(c, m), m);
    case _ =>
  }

  lemma LeaveMoves(c: L.Cluster, r: ReqId)
    requires L.Enabled(c, L.LetGo(r))
    ensures L.Leave(c, r).attempts == c.attempts[r := c.attempts[r].(phase := L.Released)]
  {
  }

  lemma ReceiveMoves(c: L.Cluster, m: LockMsg)
    requires m.to in c.engines
    ensures L.Receive(c, m).attempts == c.attempts
  {
  }

  lemma SameNodes(c: L.Cluster, ev: L.Event)
    requires L.Enabled(c, ev)
    ensures L.Next(c, ev).engines.Keys == c.engines.Keys
  {
  }

  lemma SameRaise(s: System, d: System, q: ReqId)
    requires d == s.(lock := d.lock) && RaiseOk(s, q)
    ensures RaiseOk(d, q)
  {
    match RaiseOf(s, q)
    case Reading(seen) =>
      forall i | 0 <= i < |seen| && seen[i].disponible == 1 ensures Free(d, seen[i].id) {
        assert Free(s, seen[i].id);
      }
    case Chosen(e) => assert Free(s, e);
    case _ =>
  }

  /** The lock moves on; every engineer that is available and booked is still in the hands of his raise. */
  lemma LockMovedKeeps(s: System, d: System, m: int)
    requires Inv(s, m) && d == s.(lock := d.lock)
    requires L.Inv(d.lock) && L.OneMaster(d.lock, m) && d.lock.engines.Keys == s.lock.engines.Keys
    requires forall q {:trigger MovedAt(s.lock, d.lock, q)} :: q in s.lock.attempts ==> MovedAt(s.lock, d.lock, q)
    requires forall t {:trigger InWindow(d, t)} :: Live(s, t) && Available(s, s.booked[t]) ==> InWindow(d, t)
    ensures Inv(d, m)
  {
    forall q | q in s.raises ensures Started(d, q) {
      assert Started(s, q);
      assert MovedAt(s.lock, d.lock, q);
    }
    forall q | Active(d, q) ensures RaiseOk(d, q) {
      if q in s.raises {
        assert Started(s, q);
        assert MovedAt(s.lock, d.lock, q);
        assert Active(s, q);
        assert RaiseOk(s, q);
        SameRaise(s, d, q);
      }
    }
    forall t | t in d.booked ensures LiveOk(d, t) {
      assert LiveOk(s, t);
      assert InWindow(d, t) || !InWindow(d, t);
    }
    forall n | n in d.shards ensures EngineersAt(d, n) && TicketsAt(d, n) {
      assert EngineersAt(s, n) && TicketsAt(s, n);
    }
    forall x | x in d.commits ensures CommitOk(d, x) {
      assert CommitOk(s, x);
    }
  }

  lemma LockStepKeeps(s: System, m: int, ev: L.Event)
    requires Inv(s, m) && L.Enabled(s.lock, ev) && !ev.LetGo? && !ev.ChangeMaster?
    ensures Inv(s.(lock := L.Next(s.lock, ev)), m)
  {
    var d := s.(lock := L.Next(s.lock, ev));
    L.StepKeeps(s.lock, ev);
    L.OneMasterKeeps(s.lock, ev, m);
    SameNodes(s.lock, ev);
    forall q | q in s.lock.attempts ensures MovedAt(s.lock, d.lock, q) {
      StepMoves(s.lock, ev, q);
    }
    forall t | Live(s, t) && Available(s, s.booked[t]) ensures InWindow(d, t) {
      assert LiveOk(s, t);
      var q :| Owns(s, q, t);
      StepMoves(s.lock, ev, q);
      assert Owns(d, q, t);
    }
    LockMovedKeeps(s, d, m);
  }

  /** The release: nobody is active any more, so every live ticket's engineer has to be unavailable. */
  lemma FinishKeeps(s: System, m: int, r: ReqId)
    requires Inv(s, m) && Enabled(s, Finish(r)) && Orderly(s, Finish(r))
    ensures Inv(s.(lock := L.Next(s.lock, L.LetGo(r))), m)
  {
    var ev := L.LetGo(r);
    var d := s.(lock := L.Next(s.lock, ev));
    L.StepKeeps(s.lock, ev);
    L.OneMasterKeeps(s.lock, ev, m);
    SameNodes(s.lock, ev);
    forall q | q in s.lock.attempts ensures MovedAt(s.lock, d.lock, q) {
      StepMoves(s.lock, ev, q);
    }
    assert RaiseOk(s, r);
    forall t | Live(s, t) ensures !Available(s, s.booked[t]) {
      assert LiveOk(s, t);
      if Available(s, s.booked[t]) {
        var q :| Owns(s, q, t);
        OneActive(s, m, q, r);
      }
    }
    LockMovedKeeps(s, d, m);
  }

  // ---- closing -------------------------------------------------------------------------------------

  /** A close keeps the invariant unless it gets to the engineer's branch without being due. */
  lemma CloseKeeps(s: System, m: int, node: int, t: int, e: int, now: string, applied: bool, targets: set<int>)
    requires Inv(s, m) && Peers(s, node, targets)
    requires GetsTo(node, applied, targets, HomeOf(e)) ==> CloseIsDue(s, t, e)
    ensures Inv(Closing(s, node, t, e, now, applied, targets), m)
  {
    var b := if (applied || targets != {}) && BookedFor(s, t, e) then s.(closing := s.closing + {t}) else s;
    assert Calmer(s, b);
    CalmerKeeps(s, b);
    forall q | q in b.raises ensures Started(b, q) {
      assert Started(s, q);
    }
    forall n | n in b.shards ensures EngineersAt(b, n) && TicketsAt(b, n) {
      assert EngineersAt(s, n) && TicketsAt(s, n);
    }
    forall x | x in b.commits ensures CommitOk(b, x) {
      assert CommitOk(s, x);
    }
    CommittedKeeps(b, m, node, CloseTicket(t, e), now, applied, targets);
  }

  lemma FirstCloseIsDue(s: System, t: int, e: int)
    requires CommitsOk(s) && s.freed <= s.closing && t in s.booked && s.booked[t] == e && t !in s.closing
    ensures CloseIsDue(s, t, e)
  {
    forall x | x in s.commits ensures x != CommitMsg(HomeOf(e), CloseTicket(t, e)) {
      assert CommitOk(s, x);
    }
  }

  // ---- every step, every run -------------------------------------------------------------------------

  lemma StepKeeps(s: System, m: int, ev: Event)
    requires Inv(s, m) && Enabled(s, ev) && Orderly(s, ev)
    ensures Inv(Next(s, ev), m)
  {
    match ev
    case LockStep(e) => LockStepKeeps(s, m, e);
    case Read(r, node, rows) => ReadKeeps(s, m, r, node, rows);
    case Choose(r) => ChooseKeeps(s, m, r);
    case Abandon(r) => AtKeeps(s, m, r, Nothing);
    case Insert(r, id, u, dv, now, applied, targets) =>
      if applied {
        InsertKeeps(s, m, r, id, u, dv, now, targets);
      } else {
        InsertFailedKeeps(s, m, r, id, u, dv, now, targets);
      }
    case Note(r, folio, applied, targets) => NoteKeeps(s, m, r, folio, applied, targets);
    case Mark(r, applied, targets) => MarkKeeps(s, m, r, applied, targets);
    case Finish(r) => FinishKeeps(s, m, r);
    case Arrive(x, now) => ArriveKeeps(s, m, x, now);
    case Close(node, t, e, now, applied, targets) =>
      FirstCloseIsDue(s, t, e);
      CloseKeeps(s, m, node, t, e, now, applied, targets);
    case AddIngeniero(node, row, applied, targets) =>
      CommittedKeeps(s, m, node, InsertIngeniero(row), "", applied, targets);
  }

  lemma InitIsOk(s: System, m: int)
    requires Init(s, m)
    ensures Inv(s, m)
  {
    forall n | n in s.shards ensures EngineersAt(s, n) && TicketsAt(s, n) {
    }
  }

  lemma {:induction false} InvAlways(s: System, m: int, evs: seq<Event>)
    requires Inv(s, m) && Legal(s, evs) && AlwaysOrderly(s, evs)
    ensures Inv(Run(s, evs), m)
    decreases |evs|
  {
    if evs != [] {
      StepKeeps(s, m, evs[0]);
      InvAlways(Next(s, evs[0]), m, evs[1..]);
    }
  }

  // ---- no double booking -----------------------------------------------------------------------------

  /** An open ticket in the shard of node n. */
  predicate Open(s: System, n: int, t: int) {
    n in s.shards && t in s.shards[n].tickets && s.shards[n].tickets[t].estado == ABIERTO
  }

  /** No engineer has two open tickets, not counting a ticket whose close has freed its engineer already and
      has only yet to reach the shard that keeps the ticket. */
  ghost predicate NoDoubleBooking(s: System) {
    forall n1, t1, n2, t2 {:trigger Open(s, n1, t1), Open(s, n2, t2)} ::
      && Open(s, n1, t1) && Open(s, n2, t2)
      && s.shards[n1].tickets[t1].ingeniero == s.shards[n2].tickets[t2].ingeniero
      && t1 !in s.freed && t2 !in s.freed
      ==> n1 == n2 && t1 == t2
  }

  lemma InvPreventsDoubleBooking(s: System, m: int)
    requires Inv(s, m)
    ensures NoDoubleBooking(s)
  {
    forall n1, t1, n2, t2 |
      && Open(s, n1, t1) && Open(s, n2, t2)
      && s.shards[n1].tickets[t1].ingeniero == s.shards[n2].tickets[t2].ingeniero
      && t1 !in s.freed && t2 !in s.freed
      ensures n1 == n2 && t1 == t2
    {
      assert TicketsAt(s, n1) && TicketsAt(s, n2);
      assert Live(s, t1) && Live(s, t2) && s.booked[t1] == s.booked[t2];
    }
  }

  /** In every orderly run no engineer is ever booked for two tickets at once. */
  lemma OrderlyRunsNeverDoubleBook(start: System, m: int, evs: seq<Event>)
    requires Init(start, m) && Legal(start, evs) && AlwaysOrderly(start, evs)
    ensures NoDoubleBooking(Run(start, evs))
  {
    InitIsOk(start, m);
    InvAlways(start, m, evs);
    InvPreventsDoubleBooking(Run(start, evs), m);
  }

  /** Once every close that has freed an engineer has reached the shard of its ticket, two open tickets have
      two engineers. */
  lemma NoTwoOpenTickets(start: System, m: int, evs: seq<Event>, n1: int, t1: int, n2: int, t2: int)
    requires Init(start, m) && Legal(start, evs) && AlwaysOrderly(start, evs)
    requires var s := Run(start, evs);
             && (forall n, t {:trigger Open(s, n, t)} :: Open(s, n, t) ==> t !in s.freed)
             && Open(s, n1, t1) && Open(s, n2, t2) && (n1 != n2 || t1 != t2)
    ensures var s := Run(start, evs);
            s.shards[n1].tickets[t1].ingeniero != s.shards[n2].tickets[t2].ingeniero
  {
    OrderlyRunsNeverDoubleBook(start, m, evs);
  }
}
