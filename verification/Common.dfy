/** Small helpers shared by the model: the Option type and facts about sets and sequences. */
module Common {
  datatype Option<+T> = None | Some(value: T)

  /** The number of elements of a finite set that lies in an interval is bounded by its length. */
  lemma {:induction false} SubsetSize<T>(a: set<T>, b: set<T>)
    requires a <= b
    ensures |a| <= |b|
    decreases |a|
  {
    if a == {} {
    } else {
      var x :| x in a;
      SubsetSize(a - {x}, b - {x});
    }
  }

  lemma Member<T>(a: set<T>) returns (x: T)
    requires a != {}
    ensures x in a
  {
    x :| x in a;
  }

  /** Two sets inside a universe that is smaller than both together share a member. */
  lemma Pigeonhole<T>(a: set<T>, b: set<T>, universe: set<T>) returns (x: T)
    requires a <= universe && b <= universe
    requires |a| + |b| > |universe|
    ensures x in a && x in b
  {
    if a * b == {} {
      assert |a + b| == |a| + |b|;
      SubsetSize(a + b, universe);
    }
    assert a * b != {};
    x :| x in a * b;
  }

  ghost predicate Distinct<T>(s: seq<T>) {
    forall i, j :: 0 <= i < j < |s| ==> s[i] != s[j]
  }

  /** What has happened and what is still to come, one event later. */
  lemma OneOn<T>(past: seq<T>, coming: seq<T>)
    requires coming != []
    ensures past + [coming[0]] + coming[1..] == past + coming
  {
  }
}
