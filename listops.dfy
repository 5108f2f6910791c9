/**
 * The few QList and QMap operations the registries rely on: indexOf,
 * removeOne (which removes the first occurrence), filtering in order,
 * QMap::key, which answers the smallest key holding a value, and
 * QMap::keys, which lists the keys in ascending order.
 */
module ListOps {
  import opened Wrappers

  /** QList::indexOf: the first position holding x, or -1. */
  function IndexOf<T(==)>(s: seq<T>, x: T): (i: int)
    ensures -1 <= i < |s|
    ensures i == -1 <==> x !in s
    ensures 0 <= i ==> s[i] == x && x !in s[..i]
  {
    if s == [] then -1
    else if s[0] == x then 0
    else
      var j := IndexOf(s[1..], x);
      assert j >= 0 ==> s[..j + 1] == [s[0]] + s[1..][..j];
      if j == -1 then -1 else j + 1
  }

  /** QList::removeOne: the list without its first x; unchanged when x is absent. */
  function RemoveFirst<T(==)>(s: seq<T>, x: T): (r: seq<T>)
    ensures x !in s ==> r == s
    ensures x in s ==> |r| == |s| - 1 && multiset(r) == multiset(s) - multiset{x}
  {
    var i := IndexOf(s, x);
    if i == -1 then s
    else
      assert s == s[..i] + [x] + s[i + 1..];
      s[..i] + s[i + 1..]
  }

  /** Removing one element of a duplicate-free list leaves the others, still without duplicates. */
  lemma RemoveFirstDistinct<T>(s: seq<T>, x: T)
    requires Distinct(s)
    ensures Distinct(RemoveFirst(s, x))
    ensures forall y :: y in RemoveFirst(s, x) <==> y in s && y != x
  {
    var r := RemoveFirst(s, x);
    forall y ensures y in r <==> y in s && y != x {
      assert y in r <==> multiset(r)[y] > 0;
      assert y in s <==> multiset(s)[y] > 0;
    }
    if x in s {
      var i := IndexOf(s, x);
      forall a, b | 0 <= a < b < |r| ensures r[a] != r[b] {
        var a' := if a < i then a else a + 1;
        var b' := if b < i then b else b + 1;
        assert r[a] == s[a'] && r[b] == s[b'];
      }
    }
  }

  /** Strictly ascending. */
  predicate Increasing(s: seq<int>) {
    forall i, j :: 0 <= i < j < |s| ==> s[i] < s[j]
  }

  /** Removing an element keeps a list in ascending order. */
  lemma RemoveFirstIncreasing(s: seq<int>, x: int)
    requires Increasing(s)
    ensures Increasing(RemoveFirst(s, x))
  {
    if x in s {
      var i := IndexOf(s, x);
      var r := RemoveFirst(s, x);
      forall a, b | 0 <= a < b < |r| ensures r[a] < r[b] {
        var a' := if a < i then a else a + 1;
        var b' := if b < i then b else b + 1;
        assert r[a] == s[a'] && r[b] == s[b'];
      }
    }
  }

  /** Two ascending lists with the same elements are the same list. */
  lemma {:induction false} IncreasingUnique(a: seq<int>, b: seq<int>)
    requires Increasing(a) && Increasing(b)
    requires forall x :: x in a <==> x in b
    ensures a == b
  {
    if a != [] && b != [] {
      assert a[0] in b && b[0] in a;
      var i :| 0 <= i < |b| && b[i] == a[0];
      var j :| 0 <= j < |a| && a[j] == b[0];
      assert a[0] <= a[j] && b[0] <= b[i];
      forall x ensures x in a[1..] <==> x in b[1..] {
        InTail(a, x);
        InTail(b, x);
      }
      IncreasingUnique(a[1..], b[1..]);
      assert a == [a[0]] + a[1..] && b == [b[0]] + b[1..];
    } else {
      FirstIn(a);
      FirstIn(b);
    }
  }

  /** In an increasing sequence, the tail holds every element but the first. */
  lemma InTail(a: seq<int>, x: int)
    requires Increasing(a) && a != []
    ensures x in a[1..] <==> x in a && x != a[0]
  {
    if x in a && x != a[0] {
      var k :| 0 <= k < |a| && a[k] == x;
      assert a[1..][k - 1] == x;
    }
  }

  /** The head of an increasing sequence is below everything in its tail. */
  lemma HeadBelowTail(a: seq<int>)
    requires Increasing(a) && a != []
    ensures forall x :: x in a[1..] ==> a[0] < x
  {
    forall x | x in a[1..] ensures a[0] < x {
      var k :| 0 <= k < |a[1..]| && a[1..][k] == x;
      assert a[k + 1] == x;
    }
  }

  /** An element below everything in an increasing sequence can go in front of it. */
  lemma ConsIncreasing(x: int, a: seq<int>)
    requires Increasing(a) && forall y :: y in a ==> x < y
    ensures Increasing([x] + a)
  {
    var r := [x] + a;
    forall i, j | 0 <= i < j < |r| ensures r[i] < r[j] {
      assert r[j] == a[j - 1] && r[j] in a;
      if i > 0 {
        assert r[i] == a[i - 1];
      }
    }
  }


  lemma FirstIn(s: seq<int>)
    ensures |s| > 0 ==> s[0] in s
  {
  }

  predicate Distinct<T(==)>(s: seq<T>) {
    forall a, b :: 0 <= a < b < |s| ==> s[a] != s[b]
  }

  /** The elements a sequence holds. */
  function Elements<T(!new)>(s: seq<T>): (r: set<T>)
    ensures forall x :: x in r <==> x in s
  {
    set x | x in s
  }

  /** One more element of a prefix adds that element. */
  lemma ElementsSnoc<T(!new)>(s: seq<T>, i: nat)
    requires i < |s|
    ensures Elements(s[..i + 1]) == Elements(s[..i]) + {s[i]}
  {
    assert s[..i + 1] == s[..i] + [s[i]];
  }

  /** The elements of s that satisfy keep, in their order. */
  function Filter<T(!new)>(s: seq<T>, keep: T -> bool): (r: seq<T>)
    ensures |r| <= |s|
    ensures forall x :: x in r <==> x in s && keep(x)
  {
    if s == [] then []
    else
      var rest := Filter(s[..|s| - 1], keep);
      assert forall x :: x in s <==> x in s[..|s| - 1] || x == s[|s| - 1];
      if keep(s[|s| - 1]) then rest + [s[|s| - 1]] else rest
  }

  /** The smallest element of a non-empty finite set of integers. */
  lemma {:induction false} MinOf(s: set<int>) returns (m: int)
    requires s != {}
    ensures m in s && forall x :: x in s ==> m <= x
    decreases |s|
  {
    HasElement(s);
    var x :| x in s;
    if s == {x} {
      m := x;
      assert forall y :: y in s ==> y == x;
    } else {
      var rest := MinOf(s - {x});
      m := if x < rest then x else rest;
      assert forall y :: y in s ==> y == x || y in s - {x};
    }
  }

  lemma HasElement(s: set<int>)
    requires s != {}
    ensures exists y :: y in s
  {
    if forall y :: y !in s {
      assert false;
    }
  }

  lemma MinExists(s: set<int>)
    requires s != {}
    ensures exists m :: m in s && forall x :: x in s ==> m <= x
  {
    var m := MinOf(s);
  }

  /** The smallest key holding value, or None when no key does. */
  function FindKey<V(==)>(m: map<int, V>, value: V): (k: Option<int>)
    ensures k.None? <==> forall key :: key in m ==> m[key] != value
    ensures k.Some? ==> k.value in m && m[k.value] == value
    ensures k.Some? ==> forall key :: key in m && m[key] == value ==> k.value <= key
  {
    var keys := set key | key in m && m[key] == value;
    assert forall key :: key in keys <==> key in m && m[key] == value;
    if keys == {} then None
    else
      MinExists(keys);
      var k :| k in keys && forall j :: j in keys ==> k <= j;
      Some(k)
  }

  /** QMap::key(value, default): the smallest key holding value, or default when none does. */
  function KeyOf<V(==)>(m: map<int, V>, value: V, default: int): (k: int)
    ensures k == default || (k in m && m[k] == value)
    ensures (exists key :: key in m && m[key] == value) ==>
      k in m && m[k] == value && forall key :: key in m && m[key] == value ==> k <= key
    ensures (forall key :: key in m ==> m[key] != value) ==> k == default
  {
    match FindKey(m, value)
    case Some(k) => k
    case None => default
  }

  /** QMap::keys of integer keys: every key once, in ascending order. */
  function SortedKeys(s: set<int>): (r: seq<int>)
    ensures |r| == |s|
    ensures forall x :: x in r <==> x in s
    ensures forall i, j :: 0 <= i < j < |r| ==> r[i] < r[j]
    decreases |s|
  {
    if s == {} then []
    else
      var m := Min(s);
      var rest := SortedKeys(s - {m});
      assert forall x :: x in rest ==> m < x;
      [m] + rest
  }

  /** The smallest element of a non-empty finite set. */
  function Min(s: set<int>): (m: int)
    requires s != {}
    ensures m in s && forall x :: x in s ==> m <= x
  {
    MinExists(s);
    var m :| m in s && forall x :: x in s ==> m <= x;
    m
  }
}
