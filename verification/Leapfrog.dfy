/**
 Set intersection tests (`Collections.java`). A sorted set is its elements in increasing order.
 */
module Leapfrog {
  import opened Protocol

  predicate Increasing(s: seq<int>) {
    forall i, j :: 0 <= i < j < |s| ==> s[i] < s[j]
  }

  /** `NavigableSet.ceiling`: the least element that is at least `k`. */
  function Ceiling(s: seq<int>, k: int): (r: Option<int>)
    requires Increasing(s)
    ensures r.Some? ==> r.value in s && k <= r.value && forall x :: x in s && k <= x ==> r.value <= x
    ensures r.None? ==> forall x :: x in s ==> x < k
  {
    if s == [] then None
    else if k <= s[0] then Some(s[0])
    else assert s == [s[0]] + s[1..]; Ceiling(s[1..], k)
  }

  /** How many elements are below `k`. */
  function Below(s: seq<int>, k: int): (n: nat)
    ensures n <= |s|
  {
    if s == [] then 0 else Below(s[1..], k) + if s[0] < k then 1 else 0
  }

  lemma {:induction false} BelowGrows(s: seq<int>, k: int, k': int)
    requires k < k'
    ensures Below(s, k) + (if k in s then 1 else 0) <= Below(s, k')
  {
    if s != [] { BelowGrows(s[1..], k, k'); }
  }

  lemma {:induction false} BelowMember(s: seq<int>, k: int)
    requires k in s
    ensures Below(s, k) < |s|
  {
    if s[0] != k { BelowMember(s[1..], k); }
  }

  predicate Disjoint<T(==)>(a: seq<T>, b: seq<T>) {
    forall x :: x in a ==> x !in b
  }

  /** No shared element is below `k`. */
  predicate NoneShared(a: seq<int>, b: seq<int>, k: int) {
    forall x :: x in a && x in b ==> k <= x
  }

  function Elements<T(==)>(s: seq<T>): set<T> {
    set x | x in s
  }

  lemma DisjointElements<T>(a: seq<T>, b: seq<T>)
    ensures Disjoint(a, b) <==> Elements(a) * Elements(b) == {}
  {
    if !Disjoint(a, b) {
      var x :| x in a && x in b;
      assert x in Elements(a) * Elements(b);
    }
    if Elements(a) * Elements(b) != {} {
      var x :| x in Elements(a) * Elements(b);
      assert x in a && x in b;
    }
  }

  /**
   The optimised test on sorted sets. `loops` counts the iterations: the two sets take turns, and each turn
   moves to a strictly greater element.
   */
  method HasIntersectionSorted(set1: seq<int>, set2: seq<int>) returns (r: bool, loops: nat)
    requires Increasing(set1) && Increasing(set2)
    ensures r <==> Elements(set1) * Elements(set2) != {}
    ensures loops <= 2 * |set1| && loops <= 2 * |set2| + 1
  {
    DisjointElements(set1, set2);
    var active, other := set1, set2;
    ghost var turns1, turns2 := 0, 0;
    loops := 0;
    if |active| == 0 { return false, 0; }
    var currentKey := Some(active[0]);
    while currentKey.Some?
      invariant loops == turns1 + turns2 && turns1 <= |set1| && turns2 <= |set2|
      invariant || (turns1 == turns2 && active == set1 && other == set2)
                || (turns1 == turns2 + 1 && active == set2 && other == set1)
      invariant currentKey.Some? ==> currentKey.value in active && NoneShared(set1, set2, currentKey.value)
      invariant currentKey.Some? ==> turns1 <= Below(set1, currentKey.value) && turns2 <= Below(set2, currentKey.value)
      invariant currentKey.None? ==> Disjoint(set1, set2)
      decreases |set1| + |set2| - loops, currentKey.Some?
    {
      var key := currentKey.value;
      var otherKey := Ceiling(other, key);
      BelowMember(active, key);
      if turns1 == turns2 { turns1 := turns1 + 1; } else { turns2 := turns2 + 1; }
      loops := loops + 1;
      if otherKey.Some? && otherKey.value == key {
        assert !Disjoint(set1, set2);
        return true, loops;
      }
      if otherKey.Some? {
        BelowGrows(set1, key, otherKey.value);
        BelowGrows(set2, key, otherKey.value);
      }
      currentKey := otherKey;
      active, other := other, active;
    }
    r := false;
  }

  /** The elements of the smaller set that the larger one contains. */
  method Intersection<T(==)>(set1: set<T>, set2: set<T>) returns (r: set<T>)
    ensures r == set1 * set2
  {
    var minSet, maxSet := set2, set1;
    if |set1| < |set2| { minSet, maxSet := set1, set2; }
    r := {};
    var todo := minSet;
    while todo != {}
      invariant todo <= minSet
      invariant forall x :: x in r <==> x in minSet && x !in todo && x in maxSet
      decreases |todo|
    {
      var x :| x in todo;
      if x in maxSet { r := r + {x}; }
      todo := todo - {x};
    }
  }

  method HasIntersection<T(==)>(set1: set<T>, set2: set<T>) returns (r: bool)
    ensures r <==> set1 * set2 != {}
  {
    var minSet, maxSet := set2, set1;
    if |set1| < |set2| { minSet, maxSet := set1, set2; }
    var todo := minSet;
    while todo != {}
      invariant todo <= minSet && (minSet - todo) * maxSet == {}
      decreases |todo|
    {
      var x :| x in todo;
      if x in maxSet {
        assert x in set1 * set2;
        return true;
      }
      todo := todo - {x};
    }
    r := false;
  }
}
