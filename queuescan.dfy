/**
 * The pieces the scheduler output parsers share. Each QRegExp pattern the
 * parsers use is built from white-space runs (\s), runs of non-space
 * characters (\S), digit runs (\d) and word runs (\w). None of these runs
 * can be followed by another character of its own kind, so every match is
 * the maximal run, and a pattern is scanned here field by field without
 * backtracking.
 */
module QueueScan {
  import opened Wrappers
  import opened IdTypes
  import opened TextOps
  import J = JobStates
  import ListOps

  /** INT_MAX: the largest value QString::toInt accepts. */
  const IntMax: int := 0x7fff_ffff

  /** QRegExp's \w on ASCII text: a letter, a digit or '_'. */
  predicate IsWordChar(c: char) {
    'a' <= c <= 'z' || 'A' <= c <= 'Z' || IsDigit(c) || c == '_'
  }

  predicate IsNonSpace(c: char) {
    !IsSpace(c)
  }

  /** The length of the longest prefix of s whose characters all satisfy p. */
  function Run(s: string, p: char -> bool): (n: nat)
    ensures n <= |s|
    ensures forall i :: 0 <= i < n ==> p(s[i])
    ensures n < |s| ==> !p(s[n])
  {
    if s == [] || !p(s[0]) then 0 else 1 + Run(s[1..], p)
  }

  /** A run followed by a character outside it is the longest prefix. */
  lemma {:induction false} RunOf(x: string, y: string, p: char -> bool)
    requires forall i :: 0 <= i < |x| ==> p(x[i])
    requires y == [] || !p(y[0])
    ensures Run(x + y, p) == |x|
  {
    if x != [] {
      assert (x + y)[1..] == x[1..] + y;
      RunOf(x[1..], y, p);
    } else {
      assert x + y == y;
    }
  }

  /** The text after the leading run of characters satisfying p. */
  function Skip(s: string, p: char -> bool): (t: string)
    ensures |t| <= |s|
  {
    s[Run(s, p)..]
  }

  /** "\s+\S+" at the start of s: the text after the field, or None. */
  function Field(s: string): (r: Option<string>)
  {
    var w := Run(s, IsSpace);
    if w == 0 || w == |s| then None else Some(Skip(s[w..], IsNonSpace))
  }

  /** "\s+(\w+)" at the start of s: the word and the text after it, or None. */
  function Word(s: string): (r: Option<(string, string)>)
    ensures r.Some? ==> |r.value.0| > 0 && forall i :: 0 <= i < |r.value.0| ==> IsWordChar(r.value.0[i])
  {
    var w := Run(s, IsSpace);
    var t := s[w..];
    var e := Run(t, IsWordChar);
    if w == 0 || e == 0 then None else Some((t[..e], t[e..]))
  }

  /** "\s+\S+" three times over: three fields in a row. */
  function ThreeFields(t: string): Option<string> {
    match Field(t)
    case None => None
    case Some(u1) =>
      match Field(u1)
      case None => None
      case Some(u2) => Field(u2)
  }

  /** QString::toInt of a run of digits: its value, when that fits an int. */
  function ToInt(digits: string): (r: Option<int>)
    requires AllDigits(digits)
    ensures r.Some? <==> |digits| > 0 && DigitsValue(digits) <= IntMax
    ensures r.Some? ==> 0 <= r.value == DigitsValue(digits)
  {
    if |digits| > 0 && DigitsValue(digits) <= IntMax then Some(DigitsValue(digits)) else None
  }

  /**
   * What a parser leaves in its id out-parameter: the value toInt gave
   * (0 when it failed), cast to IdType.
   */
  function IdOrZero(digits: string): (id: IdType)
    requires AllDigits(digits)
    ensures ToInt(digits).Some? ==> id == ToInt(digits).value
    ensures ToInt(digits).None? ==> id == 0
  {
    match ToInt(digits)
    case Some(v) => v
    case None => 0
  }

  /**
   * "^\s*(\d+)" at the start of s: the job id digits and the text after
   * them, or None.
   */
  function LeadingId(s: string): (r: Option<(string, string)>)
    ensures r.Some? ==> |r.value.0| > 0 && AllDigits(r.value.0)
  {
    var t := Skip(s, IsSpace);
    var n := Run(t, IsDigit);
    if n == 0 then None else Some((t[..n], t[n..]))
  }

  // ---- facts about text built from fields ----

  /** toInt reads back the decimal text of any number up to INT_MAX. */
  lemma ToIntDecimal(n: nat)
    requires n <= IntMax
    ensures ToInt(Decimal(n)) == Some(n)
  {
    DecimalRoundTrip(n);
  }

  predicate AllNonSpace(s: string) {
    forall i :: 0 <= i < |s| ==> IsNonSpace(s[i])
  }

  predicate AllWord(s: string) {
    forall i :: 0 <= i < |s| ==> IsWordChar(s[i])
  }

  /** Indentation, then a number, then text that does not go on with a digit. */
  lemma LeadingIdOf(indent: string, d: string, rest: string)
    requires AllSpace(indent) && |d| > 0 && AllDigits(d)
    requires rest == [] || !IsDigit(rest[0])
    ensures LeadingId(indent + (d + rest)) == Some((d, rest))
  {
    RunOf(indent, d + rest, IsSpace);
    assert (indent + (d + rest))[|indent|..] == d + rest;
    RunOf(d, rest, IsDigit);
    assert (d + rest)[..|d|] == d && (d + rest)[|d|..] == rest;
  }

  /** A space, a run of non-space characters, and then the end or more white space. */
  lemma FieldOf(f: string, rest: string)
    requires |f| > 0 && AllNonSpace(f)
    requires rest == [] || IsSpace(rest[0])
    ensures Field(" " + (f + rest)) == Some(rest)
  {
    var s := " " + (f + rest);
    RunOf(" ", f + rest, IsSpace);
    assert s[1..] == f + rest;
    RunOf(f, rest, IsNonSpace);
    assert (f + rest)[|f|..] == rest;
  }

  /** A space, a word, and then the end or a character that cannot be part of a word. */
  lemma WordOf(w: string, rest: string)
    requires |w| > 0 && AllWord(w)
    requires rest == [] || !IsWordChar(rest[0])
    ensures Word(" " + (w + rest)) == Some((w, rest))
  {
    var s := " " + (w + rest);
    assert !IsSpace(w[0]);
    RunOf(" ", w + rest, IsSpace);
    assert s[1..] == w + rest;
    RunOf(w, rest, IsWordChar);
    assert (w + rest)[..|w|] == w && (w + rest)[|w|..] == rest;
  }

  lemma ThreeFieldsChain(x1: string, x2: string, x3: string, rest: string)
    requires Field(x1) == Some(x2) && Field(x2) == Some(x3) && Field(x3) == Some(rest)
    ensures ThreeFields(x1) == Some(rest)
  {
  }

  /** Three fields, each after a single space. */
  lemma ThreeFieldsOf(a: string, b: string, c: string, rest: string)
    requires |a| > 0 && AllNonSpace(a) && |b| > 0 && AllNonSpace(b)
    requires |c| > 0 && AllNonSpace(c) && (rest == [] || IsSpace(rest[0]))
    ensures ThreeFields(" " + (a + (" " + (b + (" " + (c + rest)))))) == Some(rest)
  {
    var x3 := " " + (c + rest);
    var x2 := " " + (b + x3);
    FieldOf(a, x2);
    FieldOf(b, x3);
    FieldOf(c, rest);
    ThreeFieldsChain(" " + (a + x2), x2, x3, rest);
  }

  /** What parseQueueLine leaves in its answer and its two out-parameters. */
  datatype QueueLine = QueueLine(ok: bool, queueId: IdType, state: J.JobState)

  // ---- the ids a queue status request names ----

  /** The ids of a sequence of tracked queue ids, leaving out InvalidId and keeping their order. */
  function Listed(keys: seq<int>): (r: seq<int>)
    ensures forall x :: x in r <==> x in keys && x != InvalidId
  {
    if keys == [] then []
    else
      var rest := Listed(keys[1..]);
      assert forall x :: x in rest ==> x in keys[1..];
      (if keys[0] == InvalidId then [] else [keys[0]]) + rest
  }

  /** Leaving ids out keeps the QMap's ascending order. */
  lemma {:induction false} ListedAscending(keys: seq<int>)
    requires ListOps.Increasing(keys)
    ensures ListOps.Increasing(Listed(keys))
  {
    if keys != [] {
      ListedAscending(keys[1..]);
      ListOps.HeadBelowTail(keys);
      if keys[0] != InvalidId {
        ListOps.ConsIncreasing(keys[0], Listed(keys[1..]));
      }
    }
  }

  predicate NonNegative(s: seq<int>) {
    forall i :: 0 <= i < |s| ==> 0 <= s[i]
  }

  /** QString::number of each id. */
  function Decimals(ids: seq<int>): (r: seq<string>)
    requires NonNegative(ids)
    ensures |r| == |ids|
    ensures forall i :: 0 <= i < |r| ==> r[i] == Decimal(ids[i])
  {
    seq(|ids|, i requires 0 <= i < |ids| => Decimal(ids[i]))
  }

  /** Reading the decimal text back gives the ids again. */
  lemma DecimalsRoundTrip(ids: seq<int>)
    requires NonNegative(ids)
    ensures forall i :: 0 <= i < |ids| ==> DigitsValue(Decimals(ids)[i]) == ids[i]
  {
    forall i | 0 <= i < |ids| ensures DigitsValue(Decimals(ids)[i]) == ids[i] {
      DecimalRoundTrip(ids[i]);
    }
  }

  /** QStringList::join. */
  function Join(parts: seq<string>, sep: string): string {
    if parts == [] then ""
    else if |parts| == 1 then parts[0]
    else parts[0] + sep + Join(parts[1..], sep)
  }

  /**
   * The loop of generateQueueRequestCommand: every tracked id other than
   * InvalidId, in the order given, as decimal text.
   */
  method RequestIdStrings(keys: seq<int>) returns (strs: seq<string>)
    requires NonNegative(keys)
    ensures NonNegative(Listed(keys)) && strs == Decimals(Listed(keys))
  {
    strs := [];
    var i := 0;
    while i < |keys|
      invariant 0 <= i <= |keys|
      invariant NonNegative(Listed(keys[..i])) && strs == Decimals(Listed(keys[..i]))
    {
      ListedAppend(keys[..i], keys[i]);
      assert keys[..i + 1] == keys[..i] + [keys[i]];
      if keys[i] != InvalidId {
        strs := strs + [Decimal(keys[i])];
      }
      i := i + 1;
    }
    assert keys[..|keys|] == keys;
  }

  lemma {:induction false} ListedAppend(keys: seq<int>, x: int)
    ensures Listed(keys + [x]) == Listed(keys) + (if x == InvalidId then [] else [x])
    decreases |keys|
  {
    if keys == [] {
      assert [x][1..] == [];
    } else {
      assert (keys + [x])[1..] == keys[1..] + [x];
      ListedAppend(keys[1..], x);
    }
  }

  /** The tracked ids a status request names: all but InvalidId, ascending as the QMap keeps them. */
  function RequestedIds(jobs: map<IdType, IdType>): (r: seq<int>)
    ensures forall x :: x in r <==> x in jobs && x != InvalidId
    ensures ListOps.Increasing(r) && NonNegative(r)
  {
    var keys := ListOps.SortedKeys(jobs.Keys);
    ListedAscending(keys);
    var r := Listed(keys);
    assert NonNegative(r) by {
      forall i | 0 <= i < |r| ensures 0 <= r[i] {
        assert r[i] in r;
      }
    }
    r
  }
}
