/** Paths through any transition system: a relation that says which event leads from one state to another. */
module Paths {
  ghost predicate Leads<S(!new), E(!new)>(step: (S, E, S) -> bool, s: S, evs: seq<E>, d: S)
    decreases |evs|
  {
    if evs == [] then s == d
    else exists c {:trigger step(s, evs[0], c)} :: step(s, evs[0], c) && Leads(step, c, evs[1..], d)
  }

  ghost predicate Reaches<S(!new), E(!new)>(step: (S, E, S) -> bool, s: S, d: S) {
    exists evs {:trigger Leads(step, s, evs, d)} :: Leads(step, s, evs, d)
  }

  lemma ReachesSelf<S(!new), E(!new)>(step: (S, E, S) -> bool, s: S)
    ensures Reaches(step, s, s)
  {
    var evs: seq<E> := [];
    assert Leads(step, s, evs, s);
  }

  lemma {:induction false} LeadsFurther<S(!new), E(!new)>(step: (S, E, S) -> bool, s: S, a: seq<E>, d: S,
                                                          b: seq<E>, e: S)
    requires Leads(step, s, a, d) && Leads(step, d, b, e)
    ensures Leads(step, s, a + b, e)
    decreases |a|
  {
    var all := a + b;
    if a == [] {
      assert all == b;
    } else {
      var c :| step(s, a[0], c) && Leads(step, c, a[1..], d);
      assert all[0] == a[0] && all[1..] == a[1..] + b;
      LeadsFurther(step, c, a[1..], d, b, e);
    }
  }

  lemma ReachesTrans<S(!new), E(!new)>(step: (S, E, S) -> bool, s: S, d: S, e: S)
    requires Reaches(step, s, d) && Reaches(step, d, e)
    ensures Reaches(step, s, e)
  {
    var a :| Leads(step, s, a, d);
    var b :| Leads(step, d, b, e);
    LeadsFurther(step, s, a, d, b, e);
  }

  lemma OneStep<S(!new), E(!new)>(step: (S, E, S) -> bool, s: S, ev: E, d: S)
    requires step(s, ev, d)
    ensures Reaches(step, s, d)
  {
    var evs := [ev];
    assert evs[1..] == [] && Leads(step, d, evs[1..], d);
    assert step(s, evs[0], d);
    assert Leads(step, s, evs, d);
  }

  lemma ReachesOn<S(!new), E(!new)>(step: (S, E, S) -> bool, s: S, d: S, ev: E, e: S)
    requires Reaches(step, s, d) && step(d, ev, e)
    ensures Reaches(step, s, e)
  {
    OneStep(step, d, ev, e);
    ReachesTrans(step, s, d, e);
  }

  /** What every step keeps holds at the end of every path. */
  lemma {:induction false} KeptAlong<S(!new), E(!new)>(step: (S, E, S) -> bool, inv: S -> bool, s: S, evs: seq<E>, d: S)
    requires inv(s) && Leads(step, s, evs, d)
    requires forall x, ev, y {:trigger step(x, ev, y)} :: inv(x) && step(x, ev, y) ==> inv(y)
    ensures inv(d)
    decreases |evs|
  {
    if evs == [] {
    } else {
      var c :| step(s, evs[0], c) && Leads(step, c, evs[1..], d);
      KeptAlong(step, inv, c, evs[1..], d);
    }
  }

  lemma Kept<S(!new), E(!new)>(step: (S, E, S) -> bool, inv: S -> bool, s: S, d: S)
    requires inv(s) && Reaches(step, s, d)
    requires forall x, ev, y {:trigger step(x, ev, y)} :: inv(x) && step(x, ev, y) ==> inv(y)
    ensures inv(d)
  {
    var evs :| Leads(step, s, evs, d);
    KeptAlong(step, inv, s, evs, d);
  }

  /** A path of one kind of step is a path of any kind that allows as much. */
  lemma {:induction false} LeadsToo<S(!new), E(!new)>(step: (S, E, S) -> bool, more: (S, E, S) -> bool,
                                                      s: S, evs: seq<E>, d: S)
    requires Leads(step, s, evs, d) && forall x, ev, y {:trigger step(x, ev, y)} :: step(x, ev, y) ==> more(x, ev, y)
    ensures Leads(more, s, evs, d)
    decreases |evs|
  {
    if evs == [] {
    } else {
      var c :| step(s, evs[0], c) && Leads(step, c, evs[1..], d);
      LeadsToo(step, more, c, evs[1..], d);
    }
  }

  lemma ReachesToo<S(!new), E(!new)>(step: (S, E, S) -> bool, more: (S, E, S) -> bool, s: S, d: S)
    requires Reaches(step, s, d) && forall x, ev, y {:trigger step(x, ev, y)} :: step(x, ev, y) ==> more(x, ev, y)
    ensures Reaches(more, s, d)
  {
    var evs :| Leads(step, s, evs, d);
    LeadsToo(step, more, s, evs, d);
  }

  /** What every step says of its event holds of all events of a path. */
  lemma {:induction false} EventsOnPath<S(!new), E(!new)>(step: (S, E, S) -> bool, ok: E -> bool, s: S,
                                                          evs: seq<E>, d: S)
    requires Leads(step, s, evs, d) && forall x, ev, y {:trigger step(x, ev, y)} :: step(x, ev, y) ==> ok(ev)
    ensures forall i :: 0 <= i < |evs| ==> ok(evs[i])
    decreases |evs|
  {
    if evs == [] {
    } else {
      var c :| step(s, evs[0], c) && Leads(step, c, evs[1..], d);
      EventsOnPath(step, ok, c, evs[1..], d);
      forall i | 0 <= i < |evs| ensures ok(evs[i]) {
        assert i > 0 ==> evs[i] == evs[1..][i - 1];
      }
    }
  }
}
