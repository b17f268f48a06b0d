/** Ways from one state of the ticket system to another, built step by step: how the lock is got and given
    up, how a raise is brought to its end, how an engineer is booked (internal/service/ticket_service.go). */
module BookingRuns {
  import opened Common
  import opened Database
  import opened IdAllocation
  import opened LockEngine
  import opened Booking
  import L = LockCluster
  import P = LockPaths
  import G = LockGrants
  import Paths

  // ---- paths ---------------------------------------------------------------------------------------

  /** Ordinary work only: no close, no reassignment, no change of master, no timeout, nothing abandoned, and
      every proposal succeeds at once. */
  predicate Plain(ev: Event) {
    || (ev.LockStep? && P.Smooth(ev.ev)) || ev.Read? || ev.Choose? || ev.Finish?
    || ((ev.Insert? || ev.Note? || ev.Mark?) && ev.applied)
  }

  /** Two ways of working: with ordinary steps, orderly or not, or with any orderly steps. */
  datatype Manner = Plainly | InOrder

  predicate Allowed(w: Manner, s: System, ev: Event) {
    match w case Plainly => Plain(ev) case InOrder => Orderly(s, ev)
  }

  ghost function StepOf(w: Manner): (System, Event, System) -> bool {
    (s, ev, d) => Enabled(s, ev) && Allowed(w, s, ev) && Next(s, ev) == d
  }

  ghost predicate Leads(w: Manner, s: System, evs: seq<Event>, d: System) {
    Paths.Leads(StepOf(w), s, evs, d)
  }

  ghost predicate Reaches(w: Manner, s: System, d: System) {
    Paths.Reaches(StepOf(w), s, d)
  }

  lemma ReachesSelf(w: Manner, s: System)
    ensures Reaches(w, s, s)
  {
    Paths.ReachesSelf(StepOf(w), s);
  }

  lemma ReachesTrans(w: Manner, s: System, d: System, e: System)
    requires Reaches(w, s, d) && Reaches(w, d, e)
    ensures Reaches(w, s, e)
  {
    Paths.ReachesTrans(StepOf(w), s, d, e);
  }

  lemma OneStep(w: Manner, s: System, ev: Event)
    requires Enabled(s, ev) && Allowed(w, s, ev)
    ensures Reaches(w, s, Next(s, ev))
  {
    assert StepOf(w)(s, ev, Next(s, ev));
    Paths.OneStep(StepOf(w), s, ev, Next(s, ev));
  }

  lemma ReachesOn(w: Manner, s: System, d: System, ev: Event)
    requires Reaches(w, s, d) && Enabled(d, ev) && Allowed(w, d, ev)
    ensures Reaches(w, s, Next(d, ev))
  {
    OneStep(w, d, ev);
    ReachesTrans(w, s, d, Next(d, ev));
  }

  /** An orderly path is an orderly run. */
  lemma {:induction false} LeadsIsRun(s: System, evs: seq<Event>, d: System)
    requires Leads(InOrder, s, evs, d)
    ensures Legal(s, evs) && AlwaysOrderly(s, evs) && Run(s, evs) == d
    decreases |evs|
  {
    if evs == [] {
    } else {
      var c :| StepOf(InOrder)(s, evs[0], c) && Paths.Leads(StepOf(InOrder), c, evs[1..], d);
      LeadsIsRun(c, evs[1..], d);
    }
  }

  lemma {:induction false} RunLeads(s: System, evs: seq<Event>)
    requires Legal(s, evs) && AlwaysOrderly(s, evs)
    ensures Leads(InOrder, s, evs, Run(s, evs))
    decreases |evs|
  {
    if evs == [] {
    } else {
      assert StepOf(InOrder)(s, evs[0], Next(s, evs[0]));
      RunLeads(Next(s, evs[0]), evs[1..]);
    }
  }

  lemma ReachesInv(s: System, d: System, m: int)
    requires Inv(s, m) && Reaches(InOrder, s, d)
    ensures Inv(d, m)
  {
    var evs :| Paths.Leads(StepOf(InOrder), s, evs, d);
    LeadsIsRun(s, evs, d);
    InvAlways(s, m, evs);
  }

  // ---- the lock moves on ---------------------------------------------------------------------------------

  lemma {:induction false} LockLeads(w: Manner, s: System, evs: seq<L.Event>, d: L.Cluster)
    requires Paths.Leads(P.SmoothStep(), s.lock, evs, d)
    ensures Reaches(w, s, s.(lock := d))
    decreases |evs|
  {
    if evs == [] {
      ReachesSelf(w, s);
    } else {
      var c :| P.SmoothStep()(s.lock, evs[0], c) && Paths.Leads(P.SmoothStep(), c, evs[1..], d);
      var next := s.(lock := c);
      assert Next(s, LockStep(evs[0])) == next;
      OneStep(w, s, LockStep(evs[0]));
      LockLeads(w, next, evs[1..], d);
      ReachesTrans(w, s, next, s.(lock := d));
    }
  }

  lemma LockMoves(w: Manner, s: System, d: L.Cluster)
    requires P.Smoothly(s.lock, d)
    ensures Reaches(w, s, s.(lock := d))
  {
    var evs :| Paths.Leads(P.SmoothStep(), s.lock, evs, d);
    LockLeads(w, s, evs, d);
  }

  /** The lock is in order and everybody takes m for the master. */
  ghost predicate Sound(s: System, m: int) {
    LockOk(s, m) && G.Registered(s.lock) && m in s.shards
  }

  /** A raise has just got the lock. */
  ghost predicate Begins(s: System, r: ReqId) {
    Active(s, r) && RaiseOf(s, r) == Reading([])
  }

  lemma SoundAfter(s: System, d: L.Cluster, m: int, r: ReqId)
    requires Sound(s, m) && P.Smoothly(s.lock, d) && P.OnlyAdvanced(s.lock, d, r)
    ensures Sound(s.(lock := d), m) && Begins(s.(lock := d), r)
  {
    var b := s.(lock := d);
    P.SmoothlyInv(s.lock, d);
    P.SmoothlyOneMaster(s.lock, d, m);
    forall q | q in b.raises ensures Started(b, q) && q in s.lock.attempts && !G.Waiting(s.lock, q) {
      assert Started(s, q);
    }
  }

  /** A lock that comes free is got by a raise that has done nothing yet. */
  lemma NextRaise(w: Manner, s: System, m: int) returns (d: System, r: ReqId)
    requires Sound(s, m) && P.ComesFree(s.lock, m)
    ensures Reaches(w, s, d) && d == s.(lock := d.lock) && Sound(d, m) && Begins(d, r)
    ensures P.NoneFailed(s.lock, m) ==> P.NoneFailed(d.lock, m)
    ensures !G.Waiting(s.lock, s.lock.engines[m].holder) && s.lock.engines[m].queue == [] ==>
              d.lock.attempts[r].owner == m
  {
    var unused := P.FreshRequest(s.lock);
    var lock: L.Cluster;
    lock, r := P.NextHolder(s.lock, m, unused);
    LockMoves(w, s, lock);
    SoundAfter(s, lock, m, r);
    d := s.(lock := lock);
  }

  // ---- a raise is brought to its end -------------------------------------------------------------------

  /** No ticket has changed, of the engineers at most the availability of some other than e, and every close
      under way still is. */
  ghost predicate Untouched(s: System, d: System, e: int) {
    && (forall x: CommitMsg {:trigger d.commits[x]} :: x.op.CloseTicket? ==> s.commits[x] <= d.commits[x])
    && d.shards.Keys == s.shards.Keys && d.booked == s.booked && d.freed == s.freed && d.closing == s.closing
    && (forall k :: k in s.shards ==> d.shards[k].tickets == s.shards[k].tickets)
    && (forall k :: k in s.shards ==> d.shards[k].ingenieros.Keys == s.shards[k].ingenieros.Keys)
    && (forall k, x :: k in s.shards && x in s.shards[k].ingenieros ==>
          d.shards[k].ingenieros[x] ==
            s.shards[k].ingenieros[x].(disponible := d.shards[k].ingenieros[x].disponible))
    && (forall k :: k in s.shards && e in s.shards[k].ingenieros ==>
          d.shards[k].ingenieros[e] == s.shards[k].ingenieros[e])
  }

  lemma UntouchedTrans(a: System, b: System, c: System, e: int)
    requires Untouched(a, b, e) && Untouched(b, c, e)
    ensures Untouched(a, c, e)
  {
  }

  /** A step of the raise that has the lock, which leaves the lock alone. */
  ghost predicate OwnStep(s: System, d: System, r: ReqId) {
    d.lock == s.lock && d.shards.Keys == s.shards.Keys && d.raises.Keys <= s.raises.Keys + {r}
  }

  lemma StillSound(s: System, d: System, m: int, r: ReqId)
    requires Sound(s, m) && Active(s, r) && OwnStep(s, d, r)
    ensures Sound(d, m) && Active(d, r)
  {
    forall q | q in d.raises ensures Started(d, q) {
      assert q != r ==> Started(s, q);
    }
  }

  /** Its ticket is for another engineer than e, or has been closed at e's branch. */
  predicate NotFor(s: System, r: ReqId, e: int) {
    match RaiseOf(s, r)
    case Inserted(t, x) => x != e || t in s.freed
    case Noted(t, x) => x != e || t in s.freed
    case Done(t, x) => x != e || t in s.freed
    case _ => true
  }

  /** The raise could release now, in good order. */
  ghost predicate MayFinish(s: System, r: ReqId) {
    Enabled(s, Finish(r)) && Orderly(s, Finish(r))
  }

  lemma HolderMayLetGo(s: System, m: int, r: ReqId)
    requires Sound(s, m) && Active(s, r)
    ensures L.Enabled(s.lock, L.LetGo(r))
  {
  }

  lemma GivesUp(s: System, m: int, r: ReqId, e: int)
    requires Sound(s, m) && Active(s, r) && (RaiseOf(s, r).Reading? || RaiseOf(s, r).Chosen?)
    ensures var d := Next(s, Abandon(r));
            && Enabled(s, Abandon(r)) && Orderly(s, Abandon(r))
            && OwnStep(s, d, r) && Untouched(s, d, e) && MayFinish(d, r)
  {
    HolderMayLetGo(s, m, r);
  }

  lemma SkipsNote(s: System, r: ReqId, e: int)
    requires Active(s, r) && RaiseOf(s, r).Inserted?
    ensures var ev := Note(r, "", false, {});
            && Enabled(s, ev) && Orderly(s, ev) && Next(s, ev) == s.(raises := Next(s, ev).raises)
            && RaiseOf(Next(s, ev), r) == Noted(RaiseOf(s, r).ticket, RaiseOf(s, r).eng)
            && OwnStep(s, Next(s, ev), r) && Untouched(s, Next(s, ev), e)
  {
    var op := UpdateTicketFolio(RaiseOf(s, r).ticket, "");
    assert Messages(op, {}) == multiset{};
  }

  /** What the mark of an engineer does at his branch. */
  lemma MarkApplies(s: System, x: int, e: int)
    requires HomeOf(x) in s.shards && x != e
    ensures var d := Applied(s, HomeOf(x), UpdateDisponible(x, 0), "");
            Untouched(s, d, e) && !Available(d, x) && d == s.(shards := d.shards)
  {
  }

  /** A mark that is not needed. */
  lemma SkipsMark(s: System, m: int, r: ReqId, e: int)
    requires Sound(s, m) && Active(s, r) && (RaiseOf(s, r).Noted? || RaiseOf(s, r).Done?)
    requires RaiseOf(s, r).ticket in s.freed || HomeOf(RaiseOf(s, r).eng) !in s.shards
    ensures var ev := Mark(r, false, {});
            && Enabled(s, ev) && Orderly(s, ev)
            && OwnStep(s, Next(s, ev), r) && Untouched(s, Next(s, ev), e) && MayFinish(Next(s, ev), r)
  {
    HolderMayLetGo(s, m, r);
    assert Messages(UpdateDisponible(RaiseOf(s, r).eng, 0), {}) == multiset{};
  }

  lemma MarkHereIs(s: System, r: ReqId)
    requires Active(s, r) && (RaiseOf(s, r).Noted? || RaiseOf(s, r).Done?)
    requires HomeOf(RaiseOf(s, r).eng) == s.lock.attempts[r].owner
    ensures var x := RaiseOf(s, r).eng;
            && Enabled(s, Mark(r, true, {}))
            && Next(s, Mark(r, true, {}))
               == At(Applied(s, HomeOf(x), UpdateDisponible(x, 0), ""), r, Done(RaiseOf(s, r).ticket, x))
  {
    assert Messages(UpdateDisponible(RaiseOf(s, r).eng, 0), {}) == multiset{};
    assert s.(commits := s.commits + multiset{}) == s;
  }

  /** A mark that is made at the raiser's own branch. */
  lemma MarksHere(s: System, m: int, r: ReqId, e: int)
    requires Sound(s, m) && Active(s, r) && (RaiseOf(s, r).Noted? || RaiseOf(s, r).Done?)
    requires RaiseOf(s, r).eng != e && HomeOf(RaiseOf(s, r).eng) == s.lock.attempts[r].owner
    ensures var ev := Mark(r, true, {});
            && Enabled(s, ev) && Orderly(s, ev)
            && OwnStep(s, Next(s, ev), r) && Untouched(s, Next(s, ev), e) && MayFinish(Next(s, ev), r)
  {
    HolderMayLetGo(s, m, r);
    MarkHereIs(s, r);
    MarkApplies(s, RaiseOf(s, r).eng, e);
  }

  /** A mark that has to travel to the engineer's branch. */
  lemma MarkTravels(s: System, m: int, r: ReqId)
    requires Sound(s, m) && Active(s, r) && (RaiseOf(s, r).Noted? || RaiseOf(s, r).Done?)
    requires HomeOf(RaiseOf(s, r).eng) in s.shards && HomeOf(RaiseOf(s, r).eng) != s.lock.attempts[r].owner
    ensures var x := RaiseOf(s, r).eng;
            var ev, msg := Mark(r, false, {HomeOf(x)}), CommitMsg(HomeOf(x), UpdateDisponible(x, 0));
            && Enabled(s, ev) && Orderly(s, ev)
            && var a := Next(s, ev);
               && a == s.(commits := a.commits, raises := s.raises[r := Done(RaiseOf(s, r).ticket, x)])
               && OwnStep(s, a, r) && msg in a.commits
  {
    var x := RaiseOf(s, r).eng;
    assert CommitMsg(HomeOf(x), UpdateDisponible(x, 0)) in Messages(UpdateDisponible(x, 0), {HomeOf(x)});
  }

  lemma MarkLands(a: System, x: int, e: int)
    requires HomeOf(x) in a.shards && x != e && CommitMsg(HomeOf(x), UpdateDisponible(x, 0)) in a.commits
    ensures var ev := Arrive(CommitMsg(HomeOf(x), UpdateDisponible(x, 0)), "");
            && Enabled(a, ev) && Orderly(a, ev)
            && var d := Next(a, ev);
               && d == a.(shards := d.shards, commits := d.commits) && !Available(d, x) && Untouched(a, d, e)
  {
    var msg := CommitMsg(HomeOf(x), UpdateDisponible(x, 0));
    var b := a.(commits := a.commits - multiset{msg});
    MarkApplies(b, x, e);
    assert Untouched(a, b, e);
    UntouchedTrans(a, b, Next(a, Arrive(msg, "")), e);
  }

  lemma MarkArrives(a: System, m: int, r: ReqId, e: int)
    requires Sound(a, m) && Active(a, r) && RaiseOf(a, r).Done? && RaiseOf(a, r).eng != e
    requires HomeOf(RaiseOf(a, r).eng) in a.shards
    requires CommitMsg(HomeOf(RaiseOf(a, r).eng), UpdateDisponible(RaiseOf(a, r).eng, 0)) in a.commits
    ensures var x := RaiseOf(a, r).eng;
            var ev := Arrive(CommitMsg(HomeOf(x), UpdateDisponible(x, 0)), "");
            && Enabled(a, ev) && Orderly(a, ev)
            && OwnStep(a, Next(a, ev), r) && Untouched(a, Next(a, ev), e) && MayFinish(Next(a, ev), r)
  {
    HolderMayLetGo(a, m, r);
    MarkLands(a, RaiseOf(a, r).eng, e);
  }

  lemma MarkedEnd(s: System, m: int, r: ReqId, e: int) returns (d: System)
    requires Sound(s, m) && Active(s, r) && (RaiseOf(s, r).Noted? || RaiseOf(s, r).Done?) && NotFor(s, r, e)
    ensures Reaches(InOrder, s, d) && OwnStep(s, d, r) && Sound(d, m) && Untouched(s, d, e) && MayFinish(d, r)
  {
    var x := RaiseOf(s, r).eng;
    if RaiseOf(s, r).ticket in s.freed || HomeOf(x) !in s.shards {
      SkipsMark(s, m, r, e);
      OneStep(InOrder, s, Mark(r, false, {}));
      d := Next(s, Mark(r, false, {}));
    } else if HomeOf(x) == s.lock.attempts[r].owner {
      MarksHere(s, m, r, e);
      OneStep(InOrder, s, Mark(r, true, {}));
      d := Next(s, Mark(r, true, {}));
    } else {
      MarkTravels(s, m, r);
      var a := Next(s, Mark(r, false, {HomeOf(x)}));
      var ev := Arrive(CommitMsg(HomeOf(x), UpdateDisponible(x, 0)), "");
      OneStep(InOrder, s, Mark(r, false, {HomeOf(x)}));
      StillSound(s, a, m, r);
      MarkArrives(a, m, r, e);
      ReachesOn(InOrder, s, a, ev);
      d := Next(a, ev);
      UntouchedTrans(s, a, d, e);
    }
    StillSound(s, d, m, r);
  }

  /** Whatever a raise has done so far, it can be brought to an orderly end without touching engineer e. */
  lemma RaiseEnds(s: System, m: int, r: ReqId, e: int) returns (d: System)
    requires Sound(s, m) && Active(s, r) && NotFor(s, r, e)
    ensures Reaches(InOrder, s, d) && OwnStep(s, d, r) && Sound(d, m) && Untouched(s, d, e) && MayFinish(d, r)
  {
    if RaiseOf(s, r).Reading? || RaiseOf(s, r).Chosen? {
      GivesUp(s, m, r, e);
      OneStep(InOrder, s, Abandon(r));
      d := Next(s, Abandon(r));
    } else if RaiseOf(s, r).Nothing? {
      HolderMayLetGo(s, m, r);
      ReachesSelf(InOrder, s);
      d := s;
    } else if RaiseOf(s, r).Inserted? {
      var ev := Note(r, "", false, {});
      SkipsNote(s, r, e);
      var a := Next(s, ev);
      OneStep(InOrder, s, ev);
      StillSound(s, a, m, r);
      d := MarkedEnd(a, m, r, e);
      ReachesTrans(InOrder, s, a, d);
      UntouchedTrans(s, a, d, e);
    } else {
      d := MarkedEnd(s, m, r, e);
    }
    StillSound(s, d, m, r);
  }

  // ---- the next raise ----------------------------------------------------------------------------------

  ghost predicate NobodyActive(s: System) {
    forall q {:trigger Active(s, q)} :: !Active(s, q)
  }

  lemma HolderIsActive(s: System, m: int, r: ReqId)
    requires Sound(s, m) && Active(s, r)
    ensures s.lock.attempts[r].arbiter == m && s.lock.engines[m].holder == r != Nobody
  {
    assert L.AttemptOk(s.lock, r);
  }

  lemma ReleaseFailsNobody(s: System, m: int, r: ReqId)
    requires Sound(s, m) && Active(s, r) && Enabled(s, Finish(r)) && P.NoneFailed(s.lock, m)
    ensures P.NoneFailed(Next(s, Finish(r)).lock, m)
  {
    var c, d := s.lock, L.Next(s.lock, L.LetGo(r));
    HolderIsActive(s, m, r);
    assert L.AttemptOk(c, r);
    LeaveMoves(c, r);
    if c.attempts[r].local {
      P.LocalReleasePasses(c, m, r);
    } else {
      P.RemoteReleaseSends(c, m, r);
    }
    P.NoneFailedKept(c, d, m);
  }

  /** A release that does not go to a request that has given up lets the lock come free. */
  lemma ReleaseComesFree(s: System, m: int, r: ReqId)
    requires Sound(s, m) && Active(s, r) && Enabled(s, Finish(r)) && !P.HeadFailed(s.lock, m)
    ensures P.ComesFree(Next(s, Finish(r)).lock, m)
    ensures !G.Waiting(Next(s, Finish(r)).lock, Next(s, Finish(r)).lock.engines[m].holder)
            <== s.lock.engines[m].queue == []
    ensures s.lock.engines[m].queue == [] ==> Next(s, Finish(r)).lock.engines[m].queue == []
  {
    HolderIsActive(s, m, r);
    assert L.AttemptOk(s.lock, r);
    if s.lock.attempts[r].local {
      P.LocalReleasePasses(s.lock, m, r);
      L.StepKeeps(s.lock, L.LetGo(r));
      var d := L.Next(s.lock, L.LetGo(r));
      assert Nobody in d.attempts ==> L.AttemptOk(d, Nobody);
    } else {
      P.RemoteReleaseSends(s.lock, m, r);
    }
  }

  lemma ReleaseIsSound(s: System, m: int, r: ReqId)
    requires Sound(s, m) && Active(s, r) && Enabled(s, Finish(r))
    ensures var a := Next(s, Finish(r)); a == s.(lock := a.lock) && Sound(a, m) && NobodyActive(a)
  {
    var ev, a := L.LetGo(r), Next(s, Finish(r));
    HolderIsActive(s, m, r);
    L.StepKeeps(s.lock, ev);
    L.OneMasterKeeps(s.lock, ev, m);
    G.RegisteredStep(s.lock, ev);
    SameNodes(s.lock, ev);
    forall q | q in s.lock.attempts ensures MovedAt(s.lock, a.lock, q) {
      StepMoves(s.lock, ev, q);
    }
    forall q | q in a.raises ensures Started(a, q) {
      assert Started(s, q);
      assert MovedAt(s.lock, a.lock, q);
    }
    forall q | q in s.lock.attempts && s.lock.attempts[q].phase == L.Held ensures q == r {
      assert L.AttemptOk(s.lock, q);
    }
    forall q | q in a.lock.attempts ensures a.lock.attempts[q].phase != L.Held {
      LeaveMoves(s.lock, r);
    }
  }

  /** The lock of node m is not lost: it comes free, or is with a raise and would not go on to a request that
      has given up. */
  ghost predicate CanBeHad(s: System, m: int) {
    && m in s.lock.engines
    && (P.ComesFree(s.lock, m) || (Active(s, s.lock.engines[m].holder) && !P.HeadFailed(s.lock, m)))
  }

  /** As long as the lock is not lost, there comes another raise, and engineer e can be left alone until then. */
  lemma FreshRaise(s: System, m: int, e: int) returns (d: System, r: ReqId)
    requires Sound(s, m) && CanBeHad(s, m) && (forall q {:trigger Active(s, q)} :: Active(s, q) ==> NotFor(s, q, e))
    ensures Reaches(InOrder, s, d) && Sound(d, m) && Begins(d, r) && Untouched(s, d, e)
    ensures P.NoneFailed(s.lock, m) ==> P.NoneFailed(d.lock, m)
  {
    if P.ComesFree(s.lock, m) {
      d, r := NextRaise(InOrder, s, m);
    } else {
      var h := s.lock.engines[m].holder;
      var b := RaiseEnds(s, m, h, e);
      ReleaseComesFree(b, m, h);
      ReleaseIsSound(b, m, h);
      if P.NoneFailed(s.lock, m) {
        ReleaseFailsNobody(b, m, h);
      }
      var a := Next(b, Finish(h));
      ReachesOn(InOrder, s, b, Finish(h));
      d, r := NextRaise(InOrder, a, m);
      ReachesTrans(InOrder, s, a, d);
    }
  }

  // ---- an engineer is booked -----------------------------------------------------------------------------

  /** No ticket has had this ID. */
  predicate Unused(s: System, id: int) {
    id !in s.booked && id !in s.freed && forall k :: k in s.shards ==> id !in s.shards[k].tickets
  }

  /** Branch k has an ID left for a ticket. */
  ghost predicate IdLeft(s: System, k: int) {
    exists id :: HomeOf(id) == k && Unused(s, id)
  }

  ghost predicate IdsLeft(s: System) {
    forall k {:trigger IdLeft(s, k)} :: k in s.shards ==> IdLeft(s, k)
  }

  /** All tickets of all shards have been inserted, and a branch has more IDs than that. */
  ghost predicate Roomy(s: System, spare: nat) {
    && |s.booked| + spare < ID_SPAN && s.freed <= s.booked.Keys
    && forall n, t :: n in s.shards && t in s.shards[n].tickets ==> t in s.booked
  }

  function IdsOf(k: int, n: nat): set<int> {
    set i | 0 <= i < n :: NewId(k, i)
  }

  lemma {:induction false} CountIds(k: int, n: nat)
    ensures |IdsOf(k, n)| == n
    decreases n
  {
    if n == 0 {
    } else {
      CountIds(k, n - 1);
      forall id ensures id in IdsOf(k, n) <==> id in IdsOf(k, n - 1) + {NewId(k, n - 1)} {
        assert id in IdsOf(k, n) ==> exists i :: 0 <= i < n && id == NewId(k, i);
      }
      assert IdsOf(k, n) == IdsOf(k, n - 1) + {NewId(k, n - 1)};
    }
  }

  /** Then branch k has an unused ID besides a few given ones. */
  lemma SpareId(s: System, k: int, avoid: set<int>) returns (id: int)
    requires Roomy(s, |avoid|)
    ensures HomeOf(id) == k && Unused(s, id) && id !in avoid
  {
    var taken := s.booked.Keys + avoid;
    CountIds(k, ID_SPAN);
    assert |taken| <= |s.booked.Keys| + |avoid| && |s.booked.Keys| == |s.booked|;
    if IdsOf(k, ID_SPAN) <= taken {
      SubsetSize(IdsOf(k, ID_SPAN), taken);
    }
    id :| id in IdsOf(k, ID_SPAN) && id !in taken;
    var i :| 0 <= i < ID_SPAN && id == NewId(k, i);
    IdsDecode(k, i);
  }

  lemma RoomLeavesIds(s: System)
    requires Roomy(s, 0)
    ensures IdsLeft(s)
  {
    forall k | k in s.shards ensures IdLeft(s, k) {
      var id := SpareId(s, k, {});
    }
  }

  /** A shard can answer with any of its engineers first. */
  lemma {:induction false} ListRows(table: map<int, Ingeniero>) returns (rows: seq<Ingeniero>)
    requires forall e :: e in table ==> table[e].id == e
    ensures Lists(rows, table)
    decreases |table|, 1
  {
    if |table| == 0 {
      rows := [];
    } else {
      var e := Member(table.Keys);
      rows := ListFirst(table, e);
    }
  }

  lemma {:induction false} ListFirst(table: map<int, Ingeniero>, e: int) returns (rows: seq<Ingeniero>)
    requires forall x :: x in table ==> table[x].id == x
    requires e in table
    ensures Lists(rows, table) && rows != [] && rows[0] == table[e]
    decreases |table|, 0
  {
    var rest := table - {e};
    assert table.Keys == rest.Keys + {e} && |table.Keys| == |rest.Keys| + 1;
    assert |rest| == |rest.Keys| && |table| == |table.Keys|;
    var tail := ListRows(rest);
    rows := [table[e]] + tail;
  }

  /** A raise that has just begun can find any available engineer first. */
  lemma ReadsFirst(s: System, r: ReqId, e: int) returns (rows: seq<Ingeniero>)
    requires Begins(s, r) && Available(s, e) && EngineersAt(s, HomeOf(e))
    ensures Enabled(s, Read(r, HomeOf(e), rows)) && Next(s, Read(r, HomeOf(e), rows)) == At(s, r, Reading(rows))
    ensures FirstAvailable(rows).Some? && FirstAvailable(rows).value.id == e
  {
    rows := ListFirst(s.shards[HomeOf(e)].ingenieros, e);
    assert [] + rows == rows;
    HeadIsFirst(rows);
  }

  lemma ChoosesFirst(s: System, r: ReqId, rows: seq<Ingeniero>)
    requires Active(s, r) && FirstAvailable(rows).Some?
    ensures var a := At(s, r, Reading(rows));
            Enabled(a, Choose(r)) && Next(a, Choose(r)) == At(s, r, Chosen(FirstAvailable(rows).value.id))
  {
    var a, e := At(s, r, Reading(rows)), FirstAvailable(rows).value.id;
    assert RaiseOf(a, r) == Reading(rows);
    assert a.raises[r := Chosen(e)] == s.raises[r := Chosen(e)];
  }

  lemma Chooses(w: Manner, s: System, r: ReqId, e: int)
    requires Begins(s, r) && Available(s, e) && EngineersAt(s, HomeOf(e))
    ensures Reaches(w, s, At(s, r, Chosen(e)))
  {
    var rows := ReadsFirst(s, r, e);
    OneStep(w, s, Read(r, HomeOf(e), rows));
    ChoosesFirst(s, r, rows);
    ReachesOn(w, s, At(s, r, Reading(rows)), Choose(r));
  }

  function OpenTicket(id: int, e: int, n: int): Ticket {
    Ticket(id, 0, e, n, 0, ABIERTO, "", "", "")
  }

  /** The state in which raise r has just booked engineer e. */
  function JustBooked(s: System, r: ReqId, n: int, e: int, id: int): System
    requires n in s.shards
  {
    s.(raises := s.raises[r := Inserted(id, e)],
       booked := s.booked[id := e],
       shards := s.shards[n := s.shards[n].(tickets := s.shards[n].tickets[id := OpenTicket(id, e, n)])])
  }

  lemma JustBookedIsSound(s: System, m: int, r: ReqId, k: int, e: int, id: int)
    requires Sound(s, m) && Active(s, r) && k in s.shards
    ensures OwnStep(s, JustBooked(s, r, k, e, id), r) && Sound(JustBooked(s, r, k, e, id), m)
    ensures Active(JustBooked(s, r, k, e, id), r)
  {
    StillSound(s, JustBooked(s, r, k, e, id), m, r);
  }

  lemma InsertsNow(s: System, r: ReqId, n: int, e: int, id: int)
    requires Active(s, r) && n == s.lock.attempts[r].owner && HomeOf(id) == n && Unused(s, id)
    ensures var b, ev := At(s, r, Chosen(e)), Insert(r, id, 0, 0, "", true, {});
            Enabled(b, ev) && Next(b, ev) == JustBooked(s, r, n, e, id)
  {
    var b := At(s, r, Chosen(e));
    assert Peers(b, n, {});
    assert Messages(InsertTicket(OpenTicket(id, e, n)), {}) == multiset{};
    assert b.raises[r := Inserted(id, e)] == s.raises[r := Inserted(id, e)];
  }

  lemma BooksAtOnce(w: Manner, s: System, r: ReqId, e: int, id: int)
    requires Begins(s, r) && Available(s, e) && EngineersAt(s, HomeOf(e))
    requires HomeOf(id) == s.lock.attempts[r].owner && Unused(s, id)
    ensures Reaches(w, s, JustBooked(s, r, s.lock.attempts[r].owner, e, id))
  {
    Chooses(w, s, r, e);
    InsertsNow(s, r, s.lock.attempts[r].owner, e, id);
    ReachesOn(w, s, At(s, r, Chosen(e)), Insert(r, id, 0, 0, "", true, {}));
  }

  // ---- an available engineer with an open ticket is booked again ----------------------------------------

  /** Ticket t of node n is open and has not been closed at its engineer's branch, where he looks available. */
  ghost predicate Stale(s: System, n: int, t: int, e: int) {
    && Open(s, n, t) && s.shards[n].tickets[t].ingeniero == e && t !in s.freed
    && Available(s, e) && EngineersAt(s, HomeOf(e))
  }

  /** Engineer e has two open tickets that have not been closed at his branch. */
  ghost predicate Twice(s: System, e: int, n1: int, t1: int, n2: int, t2: int) {
    && Open(s, n1, t1) && Open(s, n2, t2) && (n1 != n2 || t1 != t2)
    && s.shards[n1].tickets[t1].ingeniero == e && s.shards[n2].tickets[t2].ingeniero == e
    && t1 !in s.freed && t2 !in s.freed
  }

  lemma TwiceIsDouble(s: System, e: int, n1: int, t1: int, n2: int, t2: int)
    requires Twice(s, e, n1, t1, n2, t2)
    ensures !NoDoubleBooking(s)
  {
  }

  lemma BooksBeside(w: Manner, s: System, r: ReqId, n: int, t: int, e: int) returns (x: System, id: int)
    requires Begins(s, r) && Stale(s, n, t, e) && IdLeft(s, s.lock.attempts[r].owner)
    ensures Reaches(w, s, x) && Twice(x, e, n, t, s.lock.attempts[r].owner, id)
  {
    var k := s.lock.attempts[r].owner;
    id :| HomeOf(id) == k && Unused(s, id);
    BooksAtOnce(w, s, r, e, id);
    x := JustBooked(s, r, k, e, id);
  }

  lemma StaleUntouched(s: System, d: System, n: int, t: int, e: int)
    requires Stale(s, n, t, e) && Untouched(s, d, e) && IdsLeft(s)
    ensures Stale(d, n, t, e) && IdsLeft(d)
  {
    forall k | k in d.shards ensures IdLeft(d, k) {
      assert IdLeft(s, k);
      var id :| HomeOf(id) == k && Unused(s, id);
      assert Unused(d, id);
    }
  }

  /** As long as the lock is not lost, an available engineer with an open ticket is booked again in some
      orderly run. */
  lemma StaleIsBookedAgain(s: System, m: int, n: int, t: int, e: int) returns (x: System)
    requires Sound(s, m) && CanBeHad(s, m) && IdsLeft(s) && Stale(s, n, t, e)
    requires forall q {:trigger Active(s, q)} :: Active(s, q) ==> NotFor(s, q, e)
    ensures Reaches(InOrder, s, x) && !NoDoubleBooking(x)
  {
    var d, r := FreshRaise(s, m, e);
    StaleUntouched(s, d, n, t, e);
    var k := d.lock.attempts[r].owner;
    assert IdLeft(d, k);
    var id: int;
    x, id := BooksBeside(InOrder, d, r, n, t, e);
    ReachesTrans(InOrder, s, d, x);
    TwiceIsDouble(x, e, n, t, k, id);
  }
}
