/** Filtering, mapping and stable sorting of sequences, by any order relation. */
module Sequences {

  function Filter<T(!new)>(s: seq<T>, p: T -> bool): (r: seq<T>)
    ensures forall x :: x in r <==> x in s && p(x)
  {
    if s == [] then [] else (if p(s[0]) then [s[0]] else []) + Filter(s[1..], p)
  }

  function Map<A, B>(s: seq<A>, f: A -> B): (r: seq<B>)
    ensures |r| == |s| && forall i :: 0 <= i < |s| ==> r[i] == f(s[i])
  {
    seq(|s|, i requires 0 <= i < |s| => f(s[i]))
  }

  /** After everything that is not greater. */
  function Insert<T>(x: T, s: seq<T>, le: (T, T) -> bool): (r: seq<T>)
    ensures multiset(r) == multiset(s) + multiset{x}
  {
    if s == [] || le(s[|s| - 1], x) then s + [x]
    else
      assert s == s[..|s| - 1] + [s[|s| - 1]];
      Insert(x, s[..|s| - 1], le) + [s[|s| - 1]]
  }

  function Sort<T>(s: seq<T>, le: (T, T) -> bool): (r: seq<T>)
    ensures multiset(r) == multiset(s) && |r| == |s|
  {
    if s == [] then []
    else
      assert s == s[..|s| - 1] + [s[|s| - 1]];
      var r := Insert(s[|s| - 1], Sort(s[..|s| - 1], le), le);
      assert |r| == |multiset(r)|;
      r
  }

  lemma SortedMembers<T(!new)>(s: seq<T>, le: (T, T) -> bool)
    ensures forall x :: x in Sort(s, le) <==> x in s
  {
    SameMembers(Sort(s, le), s);
  }

  lemma SameMembers<T(!new)>(s: seq<T>, t: seq<T>)
    requires multiset(s) == multiset(t)
    ensures forall x :: x in s <==> x in t
  {
    assert forall x :: x in s <==> x in multiset(s);
    assert forall x :: x in t <==> x in multiset(t);
  }

  // ----- sorting sorts

  ghost predicate TotalPreorder<T(!new)>(le: (T, T) -> bool) {
    && (forall a, b :: le(a, b) || le(b, a))
    && (forall a, b, c :: le(a, b) && le(b, c) ==> le(a, c))
  }

  predicate Sorted<T>(s: seq<T>, le: (T, T) -> bool) { forall i, j :: 0 <= i < j < |s| ==> le(s[i], s[j]) }

  lemma {:induction false} InsertSorts<T(!new)>(x: T, s: seq<T>, le: (T, T) -> bool)
    requires TotalPreorder(le) && Sorted(s, le)
    ensures Sorted(Insert(x, s, le), le)
  {
    if s != [] && !le(s[|s| - 1], x) {
      var front, last := s[..|s| - 1], s[|s| - 1];
      InsertSorts(x, front, le);
      var r := Insert(x, front, le);
      SameMembers(r, front + [x]);
      forall i | 0 <= i < |r|
        ensures le(r[i], last)
      {
        assert r[i] in front + [x];
      }
    }
  }

  lemma {:induction false} SortSorts<T(!new)>(s: seq<T>, le: (T, T) -> bool)
    requires TotalPreorder(le)
    ensures Sorted(Sort(s, le), le)
  {
    if s != [] {
      SortSorts(s[..|s| - 1], le);
      InsertSorts(s[|s| - 1], Sort(s[..|s| - 1], le), le);
    }
  }

  // ----- the input order does not matter

  ghost predicate Antisymmetric<T(!new)>(le: (T, T) -> bool) { forall a, b :: le(a, b) && le(b, a) ==> a == b }

  /** Elements that the order does not tell apart are the same element. */
  ghost predicate Keyed<T(!new)>(s: seq<T>, le: (T, T) -> bool) {
    forall x, y :: x in s && y in s && le(x, y) && le(y, x) ==> x == y
  }

  lemma LastAgrees<T(!new)>(s: seq<T>, t: seq<T>, le: (T, T) -> bool)
    requires Sorted(s, le) && Sorted(t, le) && multiset(s) == multiset(t) && Keyed(s, le) && s != [] && t != []
    ensures s[|s| - 1] == t[|t| - 1]
  {
    SameMembers(s, t);
    var x, y := s[|s| - 1], t[|t| - 1];
    assert x in s && y in t;
    var i :| 0 <= i < |t| && t[i] == x;
    var j :| 0 <= j < |s| && s[j] == y;
  }

  lemma {:induction false} SortedIsUnique<T(!new)>(s: seq<T>, t: seq<T>, le: (T, T) -> bool)
    requires Sorted(s, le) && Sorted(t, le) && multiset(s) == multiset(t) && Keyed(s, le)
    ensures s == t
  {
    hide Sorted, Keyed;
    SameSize(s, t);
    if s != [] {
      var n := |s| - 1;
      LastAgrees(s, t, le);
      WithoutLast(s);
      WithoutLast(t);
      StillSorted(s, le);
      StillSorted(t, le);
      StillKeyed(s, le);
      SortedIsUnique(s[..n], t[..n], le);
    }
  }

  lemma StillSorted<T(!new)>(s: seq<T>, le: (T, T) -> bool)
    requires s != [] && Sorted(s, le)
    ensures Sorted(s[..|s| - 1], le)
  {}

  lemma StillKeyed<T(!new)>(s: seq<T>, le: (T, T) -> bool)
    requires s != [] && Keyed(s, le)
    ensures Keyed(s[..|s| - 1], le)
  {}

  lemma SameSize<T(!new)>(s: seq<T>, t: seq<T>)
    requires multiset(s) == multiset(t)
    ensures |s| == |t|
  {
    assert |s| == |multiset(s)| == |t|;
  }

  lemma WithoutLast<T(!new)>(s: seq<T>)
    requires s != []
    ensures multiset(s[..|s| - 1]) == multiset(s) - multiset{s[|s| - 1]} && s == s[..|s| - 1] + [s[|s| - 1]]
  {
    assert s == s[..|s| - 1] + [s[|s| - 1]];
  }

  lemma SortIgnoresOrder<T(!new)>(s: seq<T>, t: seq<T>, le: (T, T) -> bool)
    requires TotalPreorder(le) && multiset(s) == multiset(t) && Keyed(s, le)
    ensures Sort(s, le) == Sort(t, le)
  {
    SortSorts(s, le);
    SortSorts(t, le);
    SortedMembers(s, le);
    SortedIsUnique(Sort(s, le), Sort(t, le), le);
  }

  lemma {:induction false} FilterCounts<T(!new)>(s: seq<T>, p: T -> bool, x: T)
    ensures multiset(Filter(s, p))[x] == if p(x) then multiset(s)[x] else 0
  {
    if s != [] {
      FilterCounts(s[1..], p, x);
      assert s == [s[0]] + s[1..];
      assert multiset(s) == multiset{s[0]} + multiset(s[1..]);
      assert multiset(Filter(s, p)) == multiset(if p(s[0]) then [s[0]] else []) + multiset(Filter(s[1..], p));
    }
  }

  lemma FilterIgnoresOrder<T(!new)>(s: seq<T>, t: seq<T>, p: T -> bool)
    requires multiset(s) == multiset(t)
    ensures multiset(Filter(s, p)) == multiset(Filter(t, p))
  {
    forall x
      ensures multiset(Filter(s, p))[x] == multiset(Filter(t, p))[x]
    {
      FilterCounts(s, p, x);
      FilterCounts(t, p, x);
    }
  }

  function RemoveAt<T>(s: seq<T>, j: nat): (r: seq<T>)
    requires j < |s|
    ensures |r| == |s| - 1
  {
    s[..j] + s[j + 1..]
  }

  lemma Removed<T(!new)>(s: seq<T>, j: nat)
    requires j < |s|
    ensures multiset(RemoveAt(s, j)) == multiset(s) - multiset{s[j]}
    ensures multiset(s) == multiset(RemoveAt(s, j)) + multiset{s[j]}
  {
    assert s == s[..j] + [s[j]] + s[j + 1..];
  }

  lemma MapRemoved<A(!new), B(!new)>(s: seq<A>, j: nat, f: A -> B)
    requires j < |s|
    ensures multiset(Map(s, f)) == multiset(Map(RemoveAt(s, j), f)) + multiset{f(s[j])}
  {
    var m := Map(s, f);
    assert Map(RemoveAt(s, j), f) == RemoveAt(m, j);
    Removed(m, j);
  }

  lemma {:induction false} MapIgnoresOrder<A(!new), B(!new)>(s: seq<A>, t: seq<A>, f: A -> B)
    requires multiset(s) == multiset(t)
    ensures multiset(Map(s, f)) == multiset(Map(t, f))
    decreases |s|
  {
    SameSize(s, t);
    if s != [] {
      assert s[0] in multiset(t);
      var j :| 0 <= j < |t| && t[j] == s[0];
      Removed(s, 0);
      Removed(t, j);
      hide RemoveAt;
      MapIgnoresOrder(RemoveAt(s, 0), RemoveAt(t, j), f);
      MapRemoved(s, 0, f);
      MapRemoved(t, j, f);
    }
  }

  // ----- a key that decides

  function One<A, B>(x: A, p: A -> bool, f: A -> B): multiset<B> { if p(x) then multiset{f(x)} else multiset{} }

  /** What is kept and mapped, as a multiset. */
  function Collect<A, B>(s: seq<A>, p: A -> bool, f: A -> B): multiset<B> {
    if s == [] then multiset{} else One(s[0], p, f) + Collect(s[1..], p, f)
  }

  lemma {:induction false} CollectIsMapOfFilter<A(!new), B(!new)>(s: seq<A>, p: A -> bool, f: A -> B)
    ensures multiset(Map(Filter(s, p), f)) == Collect(s, p, f)
  {
    if s != [] {
      CollectIsMapOfFilter(s[1..], p, f);
      var rest := Filter(s[1..], p);
      MapOfTwo(if p(s[0]) then [s[0]] else [], rest, f);
      assert Map([s[0]], f) == [f(s[0])];
    }
  }

  lemma MapOfTwo<A(!new), B(!new)>(x: seq<A>, y: seq<A>, f: A -> B)
    ensures multiset(Map(x + y, f)) == multiset(Map(x, f)) + multiset(Map(y, f))
  {
    assert Map(x + y, f) == Map(x, f) + Map(y, f);
  }

  lemma {:induction false} CollectRemoved<A(!new), B(!new)>(s: seq<A>, j: nat, p: A -> bool, f: A -> B)
    requires j < |s|
    ensures Collect(s, p, f) == Collect(RemoveAt(s, j), p, f) + One(s[j], p, f)
    decreases j
  {
    hide One;
    var r := RemoveAt(s, j);
    if j == 0 {
      assert r == s[1..];
    } else {
      CollectRemoved(s[1..], j - 1, p, f);
      assert r[0] == s[0] && r[1..] == RemoveAt(s[1..], j - 1);
    }
  }

  lemma {:induction false} KeysCollectAlike<A(!new), K(!new), B(!new)>(s: seq<A>, t: seq<A>, key: A -> K, p: A -> bool, f: A -> B)
    requires multiset(Map(s, key)) == multiset(Map(t, key))
    requires forall x, y :: key(x) == key(y) ==> p(x) == p(y) && f(x) == f(y)
    ensures Collect(s, p, f) == Collect(t, p, f)
    decreases |s|
  {
    SameSize(Map(s, key), Map(t, key));
    if s == [] {
      assert t == s;
    } else {
      SameMembers(Map(s, key), Map(t, key));
      assert Map(s, key)[0] in Map(t, key);
      var j :| 0 <= j < |t| && Map(t, key)[j] == Map(s, key)[0];
      RestAlike(s, 0, t, j, key);
      hide RemoveAt, Collect;
      KeysCollectAlike(RemoveAt(s, 0), RemoveAt(t, j), key, p, f);
      CollectRemoved(s, 0, p, f);
      CollectRemoved(t, j, p, f);
    }
  }

  lemma RestAlike<A(!new), K(!new)>(s: seq<A>, i: nat, t: seq<A>, j: nat, key: A -> K)
    requires i < |s| && j < |t| && key(s[i]) == key(t[j]) && multiset(Map(s, key)) == multiset(Map(t, key))
    ensures multiset(Map(RemoveAt(s, i), key)) == multiset(Map(RemoveAt(t, j), key))
  {
    hide RemoveAt;
    MapRemoved(s, i, key);
    MapRemoved(t, j, key);
    var x := multiset{key(s[i])};
    assert multiset(Map(RemoveAt(s, i), key)) == multiset(Map(s, key)) - x;
    assert multiset(Map(RemoveAt(t, j), key)) == multiset(Map(t, key)) - x;
  }

  /** Whatever the order, lists with the same keys keep the same elements and map them alike, when the key decides both. */
  lemma KeyDecides<A(!new), K(!new), B(!new)>(s: seq<A>, t: seq<A>, key: A -> K, p: A -> bool, f: A -> B)
    requires multiset(Map(s, key)) == multiset(Map(t, key))
    requires forall x, y :: key(x) == key(y) ==> p(x) == p(y) && f(x) == f(y)
    ensures multiset(Map(Filter(s, p), f)) == multiset(Map(Filter(t, p), f))
  {
    hide Collect;
    CollectIsMapOfFilter(s, p, f);
    CollectIsMapOfFilter(t, p, f);
    KeysCollectAlike(s, t, key, p, f);
  }
}
