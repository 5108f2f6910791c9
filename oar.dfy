/**
 * The OAR queue (molequeue/app/queues/oar.cpp): reading the job id oarsub
 * prints, reading a job's id and state from a line of oarstat output, and
 * the oarstat command that asks for the tracked jobs.
 */
module Oar {
  import opened Wrappers
  import opened IdTypes
  import opened TextOps
  import J = JobStates
  import opened QueueScan
  import ListOps

  const RequestQueueCommand: string := "oarstat"

  const Marker: string := "OAR_JOB_ID="

  /** "OAR_JOB_ID=" followed by a digit starts at j. */
  predicate MarkerAt(s: string, j: int) {
    OccursAt(s, Marker, j) && j + |Marker| < |s| && IsDigit(s[j + |Marker|])
  }

  /** The first place at or after k where the pattern OAR_JOB_ID=(\d+) matches. */
  function FindMarker(s: string, k: nat): (r: Option<nat>)
    requires k <= |s|
    ensures r.Some? ==> k <= r.value && MarkerAt(s, r.value)
    ensures r.Some? ==> forall j :: k <= j < r.value ==> !MarkerAt(s, j)
    ensures r.None? ==> forall j :: k <= j ==> !MarkerAt(s, j)
    decreases |s| - k
  {
    if k == |s| then None
    else if MarkerAt(s, k) then Some(k)
    else FindMarker(s, k + 1)
  }

  /**
   * parseQueueId: the digits after the first "OAR_JOB_ID=" that has any,
   * read with toInt. Without a match the id out-parameter keeps the value
   * it had (`prior`); when toInt fails it holds 0 and the answer is false.
   */
  function ParseQueueId(output: string, prior: IdType): (r: (bool, IdType))
    ensures (forall j :: 0 <= j ==> !MarkerAt(output, j)) ==> r == (false, prior)
    ensures r.0 ==> exists j :: MarkerAt(output, j)
  {
    match FindMarker(output, 0)
    case None => (false, prior)
    case Some(i) =>
      var after := output[i + |Marker|..];
      var digits := after[..Run(after, IsDigit)];
      (ToInt(digits).Some?, IdOrZero(digits))
  }

  /** What oarsub prints: the marker and the id, with any text after it that does not start with a digit. */
  lemma ParseQueueIdOf(id: nat, rest: string)
    requires id <= IntMax
    requires rest == [] || !IsDigit(rest[0])
    ensures forall prior :: ParseQueueId(Marker + Decimal(id) + rest, prior) == (true, id)
  {
    var d := Decimal(id);
    var s := Marker + d + rest;
    assert s == Marker + (d + rest);
    assert s[..|Marker|] == Marker && s[|Marker|] == d[0];
    assert MarkerAt(s, 0);
    assert s[|Marker|..] == d + rest;
    RunOf(d, rest, IsDigit);
    assert (d + rest)[..|d|] == d;
    DecimalRoundTrip(id);
  }

  /** Output that never mentions the marker gives no id and leaves the out-parameter alone. */
  lemma NoMarkerNoId(output: string, prior: IdType)
    requires !Contains(output, Marker)
    ensures ParseQueueId(output, prior) == (false, prior)
  {
    forall j | 0 <= j ensures !MarkerAt(output, j) {
      assert !(0 <= j <= |output| - |Marker| && OccursAt(output, Marker, j));
    }
  }

  // ---- oarstat lines ----

  /**
   * The pattern ^\s*(\d+)\s+(\w+)\s+\S+ : optional indentation, the job id,
   * the state code and the user. Gives the id digits and the state word.
   */
  function LineFields(line: string): (r: Option<(string, string)>)
    ensures r.Some? ==> |r.value.0| > 0 && AllDigits(r.value.0) && |r.value.1| > 0
  {
    match LeadingId(line)
    case None => None
    case Some((digits, t)) =>
      match Word(t)
      case None => None
      case Some((code, u)) => if Field(u).None? then None else Some((digits, code))
  }

  /** The OAR state codes (already in lower case). */
  function StateOf(code: string): (r: Option<J.JobState>)
    ensures r.Some? <==> code in {"l", "e", "w", "r", "t", "f"}
  {
    if code == "l" then Some(J.Accepted)
    else if code == "e" then Some(J.Error)
    else if code == "w" then Some(J.Submitted)
    else if code == "r" then Some(J.RunningRemote)
    else if code == "t" || code == "f" then Some(J.Finished)
    else None
  }

  /**
   * parseQueueLine: the outputs start as InvalidId and Unknown; a matching
   * line sets the id (0 when toInt fails, which answers false), and a
   * recognised state code, in either case, sets the state and answers true.
   */
  function ParseQueueLine(line: string): (r: QueueLine)
    ensures LineFields(line).None? ==> r == QueueLine(false, InvalidId, J.Unknown)
    ensures !r.ok ==> r.state == J.Unknown
    ensures r.ok <==> LineFields(line).Some? && ToInt(LineFields(line).value.0).Some?
                      && StateOf(Lower(LineFields(line).value.1)).Some?
    ensures r.ok ==> r.state in {J.Accepted, J.Error, J.Submitted, J.RunningRemote, J.Finished}
  {
    match LineFields(line)
    case None => QueueLine(false, InvalidId, J.Unknown)
    case Some((digits, code)) =>
      var id := IdOrZero(digits);
      if ToInt(digits).None? then QueueLine(false, id, J.Unknown)
      else
        match StateOf(Lower(code))
        case None => QueueLine(false, id, J.Unknown)
        case Some(state) => QueueLine(true, id, state)
  }

  /** The letters of the state codes, in either case. */
  predicate StateLetter(c: char) {
    LowerChar(c) in {'l', 'e', 'w', 'r', 't', 'f'}
  }

  /**
   * A line of oarstat output, with any indentation, is read back as its job
   * id and the state its one-letter code stands for, whatever the case of
   * the letter and whatever follows the user name.
   */
  lemma {:induction false} LineRoundTrip(indent: string, id: nat, c: char, user: string, rest: string)
    requires id <= IntMax && StateLetter(c)
    requires AllSpace(indent)
    requires |user| > 0 && AllNonSpace(user)
    requires rest == [] || IsSpace(rest[0])
    ensures var r := ParseQueueLine(indent + (Decimal(id) + (" " + ([c] + (" " + (user + rest))))));
      r.ok && r.queueId == id && Some(r.state) == StateOf([LowerChar(c)])
  {
    var d := Decimal(id);
    var line := indent + (d + (" " + ([c] + (" " + (user + rest)))));
    FieldsOf(indent, d, c, user, rest);
    ToIntDecimal(id);
    ReadAs(line, d, c);
  }

  /** A line whose fields are a number toInt accepts and a state letter. */
  lemma ReadAs(line: string, d: string, c: char)
    requires LineFields(line) == Some((d, [c])) && ToInt(d).Some? && StateLetter(c)
    ensures var r := ParseQueueLine(line);
      r.ok && r.queueId == ToInt(d).value && Some(r.state) == StateOf([LowerChar(c)])
  {
    assert Lower([c]) == [LowerChar(c)];
    ParseQueueLineOf(line, d, [c]);
  }

  /** The three fields found one after the other make the line's fields. */
  lemma LineFieldsOf(line: string, digits: string, t: string, code: string, u: string)
    requires LeadingId(line) == Some((digits, t)) && Word(t) == Some((code, u)) && Field(u).Some?
    ensures LineFields(line) == Some((digits, code))
  {
  }

  lemma FieldsOf(indent: string, d: string, c: char, user: string, rest: string)
    requires AllSpace(indent) && |d| > 0 && AllDigits(d) && IsWordChar(c)
    requires |user| > 0 && AllNonSpace(user)
    requires rest == [] || IsSpace(rest[0])
    ensures LineFields(indent + (d + (" " + ([c] + (" " + (user + rest)))))) == Some((d, [c]))
  {
    var tail := " " + (user + rest);
    var afterId := " " + ([c] + tail);
    LeadingIdOf(indent, d, afterId);
    WordOf([c], tail);
    FieldOf(user, rest);
    LineFieldsOf(indent + (d + afterId), d, afterId, [c], tail);
  }

  /** A line whose fields were found is read as those fields say. */
  lemma ParseQueueLineOf(line: string, digits: string, code: string)
    requires LineFields(line) == Some((digits, code)) && ToInt(digits).Some?
    ensures var state := StateOf(Lower(code));
      ParseQueueLine(line) == QueueLine(state.Some?, ToInt(digits).value, if state.Some? then state.value else J.Unknown)
  {
  }

  /** A line that does not start with an (indented) job id is refused with the initial outputs. */
  lemma NoIdNoJob(line: string)
    requires var t := Skip(line, IsSpace); t == [] || !IsDigit(t[0])
    ensures ParseQueueLine(line) == QueueLine(false, InvalidId, J.Unknown)
  {
  }

  // ---- the status request ----

  /** generateQueueRequestCommand: "oarstat" and the requested ids, joined by " -j ". */
  method GenerateQueueRequestCommand(requestQueueCommand: string, jobs: map<IdType, IdType>) returns (command: string)
    ensures command == requestQueueCommand + " " + Join(Decimals(RequestedIds(jobs)), " -j ")
  {
    var ids := RequestIdStrings(ListOps.SortedKeys(jobs.Keys));
    command := requestQueueCommand + " " + Join(ids, " -j ");
  }
}
