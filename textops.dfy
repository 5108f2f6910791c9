/**
 * The QString operations the launch-script code relies on: searching for a
 * substring, and QString::replace / QString::remove, which rewrite every
 * occurrence of a (non-empty) pattern, scanning left to right without
 * overlaps and without rescanning the text they insert.
 */
module TextOps {

  /** `p` occurs in `s` starting at index `i`. */
  predicate OccursAt(s: string, p: string, i: int) {
    0 <= i && i + |p| <= |s| && s[i..i + |p|] == p
  }

  /** QChar::isSpace for the ASCII white-space characters. */
  predicate IsSpace(c: char) {
    c == ' ' || c == '\t' || c == '\n' || c == '\r' || c == '\U{C}' || c == '\U{B}'
  }

  predicate AllSpace(s: string) {
    forall i :: 0 <= i < |s| ==> IsSpace(s[i])
  }

  /** The text without its leading white space. */
  function TrimStart(s: string): (r: string)
    ensures |r| <= |s| && s[|s| - |r|..] == r
    ensures r == [] || !IsSpace(r[0])
  {
    if s != [] && IsSpace(s[0]) then TrimStart(s[1..]) else s
  }

  /** The text without its trailing white space. */
  function TrimEnd(s: string): (r: string)
    ensures |r| <= |s| && s[..|r|] == r
    ensures r == [] || !IsSpace(r[|r| - 1])
  {
    if s != [] && IsSpace(s[|s| - 1]) then TrimEnd(s[..|s| - 1]) else s
  }

  /** QString::trimmed: white space removed from both ends. */
  function Trimmed(s: string): (r: string)
    ensures |r| <= |s|
    ensures r == [] || (!IsSpace(r[0]) && !IsSpace(r[|r| - 1]))
  {
    TrimEnd(TrimStart(s))
  }

  lemma {:induction false} TrimStartOf(pre: string, rest: string)
    requires AllSpace(pre) && rest != [] && !IsSpace(rest[0])
    ensures TrimStart(pre + rest) == rest
    decreases |pre|
  {
    if pre != [] {
      var s := pre + rest;
      assert s[0] == pre[0] && IsSpace(s[0]);
      assert s[1..] == pre[1..] + rest;
      assert TrimStart(s) == TrimStart(s[1..]);
      TrimStartOf(pre[1..], rest);
    } else {
      assert pre + rest == rest;
    }
  }

  lemma {:induction false} TrimEndOf(rest: string, post: string)
    requires AllSpace(post) && rest != [] && !IsSpace(rest[|rest| - 1])
    ensures TrimEnd(rest + post) == rest
    decreases |post|
  {
    if post != [] {
      assert (rest + post)[..|rest + post| - 1] == rest + post[..|post| - 1];
      TrimEndOf(rest, post[..|post| - 1]);
    } else {
      assert rest + post == rest;
    }
  }

  /** QChar::toLower for ASCII letters; every other character is kept. */
  function LowerChar(c: char): (d: char)
    ensures 'A' <= c <= 'Z' ==> d as int == c as int + 32
    ensures !('A' <= c <= 'Z') ==> d == c
  {
    if 'A' <= c <= 'Z' then (c as int + 32) as char else c
  }

  /** QString::toLower. */
  function Lower(s: string): (t: string)
    ensures |t| == |s| && forall i :: 0 <= i < |s| ==> t[i] == LowerChar(s[i])
  {
    seq(|s|, i requires 0 <= i < |s| => LowerChar(s[i]))
  }

  /** QString::contains. */
  predicate Contains(s: string, p: string) {
    exists i :: 0 <= i <= |s| - |p| && OccursAt(s, p, i)
  }

  /** QString::startsWith. */
  predicate StartsWith(s: string, p: string) {
    |p| <= |s| && s[..|p|] == p
  }

  /** QString::endsWith. */
  predicate EndsWith(s: string, p: string) {
    |p| <= |s| && s[|s| - |p|..] == p
  }

  /** QString::replace(before, after): every occurrence, left to right, none overlapping. */
  function Replace(s: string, p: string, r: string): string
    requires |p| > 0
    decreases |s|
  {
    if |s| < |p| then s
    else if s[..|p|] == p then r + Replace(s[|p|..], p, r)
    else [s[0]] + Replace(s[1..], p, r)
  }

  /** The number of occurrences Replace rewrites. */
  function Count(s: string, p: string): nat
    requires |p| > 0
    decreases |s|
  {
    if |s| < |p| then 0
    else if s[..|p|] == p then 1 + Count(s[|p|..], p)
    else Count(s[1..], p)
  }

  /** QString::remove(str): Replace with the empty string. */
  function RemoveAll(s: string, p: string): (t: string)
    requires |p| > 0
  {
    Replace(s, p, "")
  }

  /** Each rewritten occurrence changes the length by |r| - |p|, and nothing else does. */
  lemma {:induction false} ReplaceLength(s: string, p: string, r: string)
    requires |p| > 0
    ensures |Replace(s, p, r)| == |s| + Count(s, p) * (|r| - |p|)
    decreases |s|
  {
    if |s| < |p| {
    } else if s[..|p|] == p {
      var t := s[|p|..];
      ReplaceLength(t, p, r);
      assert |Replace(s, p, r)| == |r| + |Replace(t, p, r)|;
      assert Count(s, p) == 1 + Count(t, p);
      Distribute(Count(t, p), |r| - |p|);
    } else {
      ReplaceLength(s[1..], p, r);
    }
  }

  lemma Distribute(c: int, d: int)
    ensures (1 + c) * d == d + c * d
  {
  }

  /** A pattern that occurs is rewritten at least once. */
  lemma {:induction false} CountPositive(s: string, p: string, i: int)
    requires |p| > 0 && OccursAt(s, p, i)
    ensures Count(s, p) >= 1
    decreases |s|
  {
    if s[..|p|] != p {
      assert i > 0;
      assert s[1..][i - 1..i - 1 + |p|] == s[i..i + |p|];
      CountPositive(s[1..], p, i - 1);
    }
  }

  /** Text without the pattern is left as it is. */
  lemma {:induction false} ReplaceAbsent(s: string, p: string, r: string)
    requires |p| > 0 && !Contains(s, p)
    ensures Replace(s, p, r) == s
    decreases |s|
  {
    if |s| >= |p| {
      assert !OccursAt(s, p, 0);
      forall i | OccursAt(s[1..], p, i)
        ensures false
      {
        assert s[1..][i..i + |p|] == s[i + 1..i + 1 + |p|];
        assert OccursAt(s, p, i + 1);
      }
      ReplaceAbsent(s[1..], p, r);
      assert s == [s[0]] + s[1..];
    }
  }

  /** Replacing a pattern by itself changes nothing. */
  lemma {:induction false} ReplaceSelf(s: string, p: string)
    requires |p| > 0
    ensures Replace(s, p, p) == s
    decreases |s|
  {
    if |s| < |p| {
    } else if s[..|p|] == p {
      ReplaceSelf(s[|p|..], p);
      assert s == s[..|p|] + s[|p|..];
    } else {
      ReplaceSelf(s[1..], p);
      assert s == [s[0]] + s[1..];
    }
  }

  /** Removing a pattern that occurs makes the text strictly shorter. */
  lemma RemoveShortens(s: string, p: string, i: int)
    requires |p| > 0 && OccursAt(s, p, i)
    ensures |RemoveAll(s, p)| < |s|
  {
    ReplaceLength(s, p, "");
    CountPositive(s, p, i);
  }

  // ---- QString::split(sep, QString::SkipEmptyParts) ----

  /** No character of s is a separator. */
  predicate NoneOf(s: string, sep: char -> bool) {
    forall i :: 0 <= i < |s| ==> !sep(s[i])
  }

  /** The characters of s that are not separators, in order. */
  function Kept(s: string, sep: char -> bool): (t: string)
    ensures NoneOf(t, sep)
  {
    if s == [] then [] else (if sep(s[0]) then [] else [s[0]]) + Kept(s[1..], sep)
  }

  /** The parts laid end to end. */
  function Concat(parts: seq<string>): string {
    if parts == [] then [] else parts[0] + Concat(parts[1..])
  }

  /**
   * Splitting s on every separator character, dropping the empty parts:
   * `cur` is the part read so far.
   */
  function SplitFrom(s: string, sep: char -> bool, cur: string): (parts: seq<string>)
    requires NoneOf(cur, sep)
    ensures forall i :: 0 <= i < |parts| ==> |parts[i]| > 0 && NoneOf(parts[i], sep)
    decreases |s|
  {
    if s == [] then (if cur == [] then [] else [cur])
    else if sep(s[0]) then (if cur == [] then [] else [cur]) + SplitFrom(s[1..], sep, [])
    else SplitFrom(s[1..], sep, cur + [s[0]])
  }

  /** QString::split on separator characters, skipping empty parts. */
  function Split(s: string, sep: char -> bool): (parts: seq<string>)
    ensures forall i :: 0 <= i < |parts| ==> |parts[i]| > 0 && NoneOf(parts[i], sep)
  {
    SplitFrom(s, sep, [])
  }

  /** Splitting loses only separators: the parts hold every other character, in order. */
  lemma SplitKeepsText(s: string, sep: char -> bool)
    ensures Concat(Split(s, sep)) == Kept(s, sep)
  {
    SplitFromKeepsText(s, sep, []);
  }

  lemma {:induction false} SplitFromKeepsText(s: string, sep: char -> bool, cur: string)
    requires NoneOf(cur, sep)
    ensures Concat(SplitFrom(s, sep, cur)) == cur + Kept(s, sep)
    decreases |s|
  {
    if s == [] {
      assert cur + [] == cur;
    } else if sep(s[0]) {
      SplitFromKeepsText(s[1..], sep, []);
      var rest := SplitFrom(s[1..], sep, []);
      if cur != [] {
        assert ([cur] + rest)[1..] == rest;
        assert Concat([cur] + rest) == cur + Concat(rest);
      } else {
        assert [] + rest == rest;
      }
      assert Kept(s, sep) == [] + Kept(s[1..], sep) == Kept(s[1..], sep);
      assert Concat(rest) == [] + Kept(s[1..], sep);
    } else {
      SplitFromKeepsText(s[1..], sep, cur + [s[0]]);
      assert (cur + [s[0]]) + Kept(s[1..], sep) == cur + ([s[0]] + Kept(s[1..], sep));
    }
  }

  /** Text without separators joins the part being read. */
  lemma {:induction false} SplitFromWord(p: string, t: string, sep: char -> bool, cur: string)
    requires NoneOf(cur, sep) && NoneOf(p, sep)
    ensures SplitFrom(p + t, sep, cur) == SplitFrom(t, sep, cur + p)
    decreases |p|
  {
    if p == [] {
      assert p + t == t && cur + p == cur;
    } else {
      assert (p + t)[0] == p[0] && (p + t)[1..] == p[1..] + t;
      SplitFromWord(p[1..], t, sep, cur + [p[0]]);
      assert cur + [p[0]] + p[1..] == cur + p;
    }
  }

  /** The parts joined with one separator character. */
  function JoinWith(parts: seq<string>, c: char): string {
    if parts == [] then []
    else if |parts| == 1 then parts[0]
    else parts[0] + ([c] + JoinWith(parts[1..], c))
  }

  /** Non-empty parts without separators, joined by a separator, split back into the same parts. */
  lemma {:induction false} SplitJoinRoundTrip(parts: seq<string>, c: char, sep: char -> bool)
    requires sep(c)
    requires forall i :: 0 <= i < |parts| ==> |parts[i]| > 0 && NoneOf(parts[i], sep)
    ensures Split(JoinWith(parts, c), sep) == parts
  {
    if parts == [] {
    } else if |parts| == 1 {
      SplitFromWord(parts[0], [], sep, []);
      assert parts[0] + [] == parts[0] && [] + parts[0] == parts[0];
    } else {
      var rest := JoinWith(parts[1..], c);
      SplitFromWord(parts[0], [c] + rest, sep, []);
      assert [] + parts[0] == parts[0];
      assert ([c] + rest)[1..] == rest;
      SplitJoinRoundTrip(parts[1..], c, sep);
      assert parts == [parts[0]] + parts[1..];
    }
  }

  /** One more part is joined after one more separator. */
  lemma {:induction false} JoinWithSnoc(parts: seq<string>, last: string, c: char)
    requires parts != []
    ensures JoinWith(parts + [last], c) == JoinWith(parts, c) + [c] + last
    decreases |parts|
  {
    assert (parts + [last])[1..] == parts[1..] + [last];
    if |parts| > 1 {
      JoinWithSnoc(parts[1..], last, c);
    }
  }
}
