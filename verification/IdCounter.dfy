/** The counter behind row IDs (newID and SetMinIDCounter in internal/service/ticket_service.go): one word
    shared by all goroutines of a process and changed by atomic steps. */
module IdCounter {
  import opened IdAllocation

  // ---- the counter object ------------------------------------------------------------------------

  /** The counter after a compare-and-swap, which fails when somebody has moved it in the meantime. */
  function Swapped(value: int, expected: int, min: int): int {
    if value == expected then min else value
  }

  class Counter {
    var value: int

    constructor (start: int)
      ensures value == start
    {
      value := start;
    }

    /** One atomic addition. */
    method NewID(node: int) returns (id: int)
      modifies this
      ensures value == old(value) + 1 && id == NewId(node, value) == node * 10_000_000_000 + value
    {
      value := value + 1;
      id := node * 10_000_000_000 + value;
    }

    method CompareAndSwap(expected: int, min: int) returns (swapped: bool)
      modifies this
      ensures swapped == (old(value) == expected) && value == Swapped(old(value), expected, min)
      ensures value == if swapped then min else old(value)
    {
      swapped := value == expected;
      if swapped {
        value := min;
      }
    }
  }

  // ---- all goroutines of a process ---------------------------------------------------------------

  /** How far a call of SetMinIDCounter has come. */
  datatype Stage = Loading | Loaded(cur: int) | Returned

  datatype Setter = Setter(min: int, stage: Stage)

  datatype Issue = Issue(node: int, counter: int)

  datatype State = State(counter: int, setters: map<int, Setter>, issued: seq<Issue>)

  datatype Event =
    | Allocate(node: int)
    | CallSetMin(t: int, min: int)
    | Load(t: int)
    | CompareSwap(t: int)

  predicate Enabled(s: State, ev: Event) {
    match ev
    case Allocate(_) => true
    case CallSetMin(t, _) => t !in s.setters
    case Load(t) => t in s.setters && s.setters[t].stage == Loading
    case CompareSwap(t) => t in s.setters && s.setters[t].stage.Loaded?
  }

  function Next(s: State, ev: Event): State
    requires Enabled(s, ev)
  {
    match ev
    case Allocate(node) => s.(counter := s.counter + 1, issued := s.issued + [Issue(node, s.counter + 1)])
    case CallSetMin(t, min) => s.(setters := s.setters[t := Setter(min, Loading)])
    case Load(t) =>
      var w := s.setters[t];
      s.(setters := s.setters[t := w.(stage := if s.counter >= w.min then Returned else Loaded(s.counter))])
    case CompareSwap(t) =>
      var w := s.setters[t];
      // after a failed swap the loop starts over
      var stage := if s.counter == w.stage.cur then Returned else Loading;
      s.(counter := Swapped(s.counter, w.stage.cur, w.min), setters := s.setters[t := w.(stage := stage)])
  }

  predicate Legal(s: State, evs: seq<Event>)
    decreases |evs|
  {
    evs == [] || (Enabled(s, evs[0]) && Legal(Next(s, evs[0]), evs[1..]))
  }

  function Run(s: State, evs: seq<Event>): State
    requires Legal(s, evs)
    decreases |evs|
  {
    if evs == [] then s else Run(Next(s, evs[0]), evs[1..])
  }

  function Start(counter: int): State {
    State(counter, map[], [])
  }

  ghost predicate Inv(start: int, s: State) {
    && start <= s.counter
    && (forall t {:trigger s.setters[t]} :: t in s.setters ==>
          && (s.setters[t].stage.Loaded? ==> s.setters[t].stage.cur < s.setters[t].min)
          && (s.setters[t].stage == Returned ==> s.counter >= s.setters[t].min))
    && (forall i :: 0 <= i < |s.issued| ==> start < s.issued[i].counter <= s.counter)
    && (forall i, j :: 0 <= i < j < |s.issued| ==> s.issued[i].counter < s.issued[j].counter)
  }

  lemma StepKeeps(start: int, s: State, ev: Event)
    requires Inv(start, s) && Enabled(s, ev)
    ensures Inv(start, Next(s, ev)) && Next(s, ev).counter >= s.counter && s.issued <= Next(s, ev).issued
  {
    if ev.CompareSwap? {
      assert s.setters[ev.t].stage.cur < s.setters[ev.t].min;
    }
  }

  /** The counter never goes down, and what was issued stays issued. */
  lemma {:induction false} InvAlways(start: int, s: State, evs: seq<Event>)
    requires Inv(start, s) && Legal(s, evs)
    ensures Inv(start, Run(s, evs)) && Run(s, evs).counter >= s.counter && s.issued <= Run(s, evs).issued
    decreases |evs|
  {
    if evs == [] {
    } else {
      StepKeeps(start, s, evs[0]);
      InvAlways(start, Next(s, evs[0]), evs[1..]);
    }
  }

  function IdOf(i: Issue): int {
    NewId(i.node, i.counter)
  }

  /** As long as the counter has kept below the span, no two calls in a process get one ID, whatever nodes
      they are for, and every ID tells its node. */
  lemma IdsAreUnique(start: int, evs: seq<Event>, i: nat, j: nat)
    requires Legal(Start(start), evs) && start >= 0 && Run(Start(start), evs).counter < ID_SPAN
    requires i < j < |Run(Start(start), evs).issued|
    ensures var issued := Run(Start(start), evs).issued;
            IdOf(issued[i]) != IdOf(issued[j]) && HomeOf(IdOf(issued[i])) == issued[i].node
  {
    InvAlways(start, Start(start), evs);
    var issued := Run(Start(start), evs).issued;
    IdsDecode(issued[i].node, issued[i].counter);
    IdsDecode(issued[j].node, issued[j].counter);
    assert issued[i].counter < issued[j].counter;
  }

  /** A call of SetMinIDCounter loads the counter and, when that was below its minimum, sets it to exactly that
      minimum if nobody has moved it since; if somebody has, it loads again. */
  lemma SwapSetsExactly(s: State, t: int)
    requires t in s.setters
    ensures Enabled(s, Load(t)) ==>
              var d := Next(s, Load(t));
              && d.counter == s.counter && d.issued == s.issued && d.setters[t].min == s.setters[t].min
              && (d.setters[t].stage == Returned <==> s.counter >= s.setters[t].min)
              && (s.counter < s.setters[t].min ==> Enabled(d, CompareSwap(t)))
    ensures Enabled(s, CompareSwap(t)) ==>
              var w, d := s.setters[t], Next(s, CompareSwap(t));
              && d.issued == s.issued && d.setters[t].min == w.min
              && d.counter == (if s.counter == w.stage.cur then w.min else s.counter)
              && (d.setters[t].stage == Returned <==> s.counter == w.stage.cur)
              && (s.counter != w.stage.cur ==> Enabled(d, Load(t)))
  {
  }

  /** A call of SetMinIDCounter that is left alone returns, and leaves the larger of the counter and its minimum. */
  lemma SetMinAlone(s: State, t: int, min: int) returns (evs: seq<Event>)
    requires t !in s.setters
    ensures Legal(s, evs) && evs != [] && evs[0] == CallSetMin(t, min)
    ensures var d := Run(s, evs);
            && d.setters == s.setters[t := Setter(min, Returned)] && d.issued == s.issued
            && d.counter == if s.counter >= min then s.counter else min
  {
    var d := Next(s, CallSetMin(t, min));
    var e := Next(d, Load(t));
    if s.counter >= min {
      evs := [CallSetMin(t, min), Load(t)];
      assert evs[1..] == [Load(t)] && evs[1..][1..] == [];
      assert Run(e, []) == e;
      assert Run(d, [Load(t)]) == e;
    } else {
      var f := Next(e, CompareSwap(t));
      evs := [CallSetMin(t, min), Load(t), CompareSwap(t)];
      assert evs[1..] == [Load(t), CompareSwap(t)] && evs[1..][1..] == [CompareSwap(t)] && evs[1..][1..][1..] == [];
      var tail := evs[1..][1..];
      assert tail[0] == CompareSwap(t) && tail[1..] == [];
      assert Legal(f, tail[1..]) && Run(f, tail[1..]) == f;
      assert Legal(e, tail) && Run(e, tail) == f;
      assert Legal(d, evs[1..]) && Run(d, evs[1..]) == f;
    }
  }

  predicate OnlyAllocations(evs: seq<Event>) {
    forall i :: 0 <= i < |evs| ==> evs[i].Allocate?
  }

  /** Calls of newID alone get consecutive counters, one for each call, in the order of the calls. */
  lemma {:induction false} AllocationsAreConsecutive(s: State, evs: seq<Event>)
    requires Legal(s, evs) && OnlyAllocations(evs)
    ensures var d := Run(s, evs);
            && d.counter == s.counter + |evs| && d.setters == s.setters
            && |d.issued| == |s.issued| + |evs| && s.issued <= d.issued
            && forall i :: 0 <= i < |evs| ==> d.issued[|s.issued| + i] == Issue(evs[i].node, s.counter + 1 + i)
    decreases |evs|
  {
    if evs == [] {
    } else {
      var next := Next(s, evs[0]);
      AllocationsAreConsecutive(next, evs[1..]);
      var d := Run(s, evs);
      assert d.issued[|s.issued|] == next.issued[|s.issued|];
      forall i | 0 <= i < |evs| ensures d.issued[|s.issued| + i] == Issue(evs[i].node, s.counter + 1 + i) {
        if i > 0 {
          assert evs[i] == evs[1..][i - 1];
          assert d.issued[|next.issued| + (i - 1)] == Issue(evs[1..][i - 1].node, next.counter + 1 + (i - 1));
        }
      }
    }
  }

  lemma {:induction false} ReturnedStays(s: State, evs: seq<Event>, t: int)
    requires Legal(s, evs) && t in s.setters && s.setters[t].stage == Returned
    ensures t in Run(s, evs).setters && Run(s, evs).setters[t] == s.setters[t]
    decreases |evs|
  {
    if evs == [] {
    } else {
      ReturnedStays(Next(s, evs[0]), evs[1..], t);
    }
  }

  /** Once SetMinIDCounter has returned the counter is at its minimum or above, for good, and every ID made
      from then on is above it. */
  lemma SetMinHolds(start: int, before: seq<Event>, after: seq<Event>, t: int)
    requires Legal(Start(start), before)
    requires var s := Run(Start(start), before);
             t in s.setters && s.setters[t].stage == Returned && Legal(s, after)
    ensures var s := Run(Start(start), before);
            && Run(s, after).counter >= s.setters[t].min
            && forall i :: |s.issued| <= i < |Run(s, after).issued| ==>
                 Run(s, after).issued[i].counter > s.setters[t].min
  {
    InvAlways(start, Start(start), before);
    var s := Run(Start(start), before);
    assert s.counter >= s.setters[t].min;
    LaterIssues(s, after);
    InvAlways(start, s, after);
  }

  lemma {:induction false} LaterIssues(s: State, evs: seq<Event>)
    requires Legal(s, evs) && exists start :: Inv(start, s)
    ensures |s.issued| <= |Run(s, evs).issued|
    ensures forall i :: |s.issued| <= i < |Run(s, evs).issued| ==> Run(s, evs).issued[i].counter > s.counter
    decreases |evs|
  {
    if evs == [] {
    } else {
      var start :| Inv(start, s);
      StepKeeps(start, s, evs[0]);
      var next := Next(s, evs[0]);
      LaterIssues(next, evs[1..]);
      InvAlways(start, next, evs[1..]);
      assert next.issued <= Run(s, evs).issued;
    }
  }
}
