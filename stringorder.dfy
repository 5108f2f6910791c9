/**
 * The order QString's operator< gives (character by character, a proper
 * prefix first) and the order in which a QMap with QString keys hands out
 * its keys.
 */
module StringOrder {

  /** QString's operator<. */
  predicate Less(a: string, b: string)
    decreases |a|
  {
    if a == [] then b != []
    else if b == [] then false
    else if a[0] != b[0] then a[0] < b[0]
    else Less(a[1..], b[1..])
  }

  lemma {:induction false} LessIrreflexive(a: string)
    ensures !Less(a, a)
    decreases |a|
  {
    if a != [] {
      LessIrreflexive(a[1..]);
    }
  }

  lemma {:induction false} LessTransitive(a: string, b: string, c: string)
    requires Less(a, b) && Less(b, c)
    ensures Less(a, c)
    decreases |a|
  {
    if a != [] && a[0] == b[0] && b[0] == c[0] {
      LessTransitive(a[1..], b[1..], c[1..]);
    }
  }

  /** Two different strings are ordered one way or the other. */
  lemma {:induction false} LessTotal(a: string, b: string)
    requires a != b
    ensures Less(a, b) || Less(b, a)
    decreases |a|
  {
    if a != [] && b != [] && a[0] == b[0] {
      assert a == [a[0]] + a[1..] && b == [b[0]] + b[1..];
      LessTotal(a[1..], b[1..]);
    }
  }

  /** The smallest string of a non-empty finite set. */
  lemma {:induction false} MinOf(s: set<string>) returns (m: string)
    requires s != {}
    ensures m in s && forall x :: x in s && x != m ==> Less(m, x)
    decreases |s|
  {
    var x :| x in s;
    if s == {x} {
      m := x;
    } else {
      var rest := MinOf(s - {x});
      if Less(x, rest) {
        m := x;
        forall y | y in s && y != x
          ensures Less(x, y)
        {
          if y != rest {
            LessTransitive(x, rest, y);
          }
        }
      } else {
        m := rest;
        LessTotal(x, rest);
      }
    }
  }

  lemma MinExists(s: set<string>)
    requires s != {}
    ensures exists m :: IsMin(s, m)
  {
    var m := MinOf(s);
    assert IsMin(s, m);
  }

  lemma LessAsymmetric(a: string, b: string)
    requires Less(a, b)
    ensures !Less(b, a)
  {
    if Less(b, a) {
      LessTransitive(a, b, a);
      LessIrreflexive(a);
    }
  }

  predicate IsMin(s: set<string>, m: string) {
    m in s && forall x :: x in s && x != m ==> Less(m, x)
  }

  /** A set has at most one smallest string. */
  lemma MinUnique(s: set<string>)
    ensures forall a, b :: IsMin(s, a) && IsMin(s, b) ==> a == b
  {
    forall a, b | IsMin(s, a) && IsMin(s, b)
      ensures a == b
    {
      if a != b {
        LessAsymmetric(a, b);
      }
    }
  }

  /** The smallest string of a non-empty finite set. */
  function Min(s: set<string>): (m: string)
    requires s != {}
    ensures m in s && forall x :: x in s && x != m ==> Less(m, x)
  {
    MinExists(s);
    MinUnique(s);
    var m :| IsMin(s, m);
    m
  }

  /** QMap::keys for QString keys: every key once, in ascending order. */
  function SortedStrings(s: set<string>): (r: seq<string>)
    ensures |r| == |s|
    ensures forall x :: x in r <==> x in s
    ensures forall i, j :: 0 <= i < j < |r| ==> Less(r[i], r[j])
    decreases |s|
  {
    if s == {} then []
    else
      var m := Min(s);
      var rest := SortedStrings(s - {m});
      [m] + rest
  }

  /** The keys come out with the largest last. */
  lemma LastIsLargest(s: set<string>)
    requires s != {}
    ensures var r := SortedStrings(s); forall x :: x in s && x != r[|r| - 1] ==> Less(x, r[|r| - 1])
  {
    var r := SortedStrings(s);
    forall x | x in s && x != r[|r| - 1]
      ensures Less(x, r[|r| - 1])
    {
      var i :| 0 <= i < |r| && r[i] == x;
    }
  }
}
