/**
 * The PBS/Torque queue (molequeue/app/queues/pbs.cpp and its earlier
 * revision molequeue/queues/pbs.cpp, whose two parsers are the same):
 * reading the job id qsub prints, reading a job's id and state from a line
 * of qstat output, and the exit codes of qstat that still count as an
 * answer.
 */
module Pbs {
  import opened Wrappers
  import opened IdTypes
  import opened TextOps
  import J = JobStates
  import opened QueueScan

  /** The exit codes every remote queue accepts from its status request. */
  const RemoteAllowedExitCodes: seq<int> := [0]

  /**
   * The exit codes a PBS queue accepts from qstat: 153 (a job has
   * completed) in both revisions, and 35 (the ezHPC fork) in the later one.
   */
  function AllowedExitCodes(later: bool): (codes: seq<int>)
    ensures 0 in codes && 153 in codes
    ensures 35 in codes <==> later
    ensures forall c :: c in codes ==> c in {0, 153, 35}
  {
    RemoteAllowedExitCodes + [153] + (if later then [35] else [])
  }

  /**
   * parseQueueId: the pattern ^(\d+) : the digits the output starts with,
   * read with toInt (0 when it fails, which answers false). Without a
   * leading digit the out-parameter keeps `prior`.
   */
  function ParseQueueId(output: string, prior: IdType): (r: (bool, IdType))
    ensures Run(output, IsDigit) == 0 ==> r == (false, prior)
    ensures r.0 <==> Run(output, IsDigit) > 0 && ToInt(output[..Run(output, IsDigit)]).Some?
    ensures r.0 ==> r.1 == DigitsValue(output[..Run(output, IsDigit)])
  {
    var n := Run(output, IsDigit);
    if n == 0 then (false, prior)
    else
      var digits := output[..n];
      (ToInt(digits).Some?, IdOrZero(digits))
  }

  /** What qsub prints, the number and then the server ("1234.host"), reads back as the number. */
  lemma ParseQueueIdOf(id: nat, rest: string)
    requires id <= IntMax
    requires rest == [] || !IsDigit(rest[0])
    ensures forall prior :: ParseQueueId(Decimal(id) + rest, prior) == (true, id)
  {
    RunOf(Decimal(id), rest, IsDigit);
    assert (Decimal(id) + rest)[..|Decimal(id)|] == Decimal(id);
    ToIntDecimal(id);
  }

  // ---- qstat lines ----

  /**
   * The pattern ^\s*(\d+)\S*\s+\S+\s+\S+\s+\S+\s+(\w+) : the job id (and
   * whatever non-space text follows it, such as ".host"), the job name, the
   * user, the time used and the state code.
   */
  function LineFields(line: string): (r: Option<(string, string)>)
    ensures r.Some? ==> |r.value.0| > 0 && AllDigits(r.value.0) && |r.value.1| > 0
  {
    match LeadingId(line)
    case None => None
    case Some((digits, t)) =>
      match ThreeFields(Skip(t, IsNonSpace))
      case None => None
      case Some(u) =>
        match Word(u)
        case None => None
        case Some((code, _)) => Some((digits, code))
  }

  /** Running, exiting, completed. */
  const RunningCodes: set<string> := {"r", "e", "c"}

  /** Queued, held, being moved, waiting, suspended. */
  const QueuedCodes: set<string> := {"q", "h", "t", "w", "s"}

  /** The PBS state codes (already in lower case). */
  function StateOf(code: string): (r: Option<J.JobState>)
    ensures r == Some(J.RunningRemote) <==> code in RunningCodes
    ensures r == Some(J.QueuedRemote) <==> code in QueuedCodes
    ensures r.None? <==> code !in RunningCodes && code !in QueuedCodes
  {
    if code in RunningCodes then Some(J.RunningRemote)
    else if code in QueuedCodes then Some(J.QueuedRemote)
    else None
  }

  /**
   * parseQueueLine: unlike the other queues it does not reset its
   * out-parameters, so a line that does not match leaves `priorId` and
   * `priorState` as they were. A matching line sets the id (0 when toInt
   * fails, which answers false); a recognised state code sets the state
   * and answers true; an unrecognised one leaves the state alone.
   */
  function ParseQueueLine(line: string, priorId: IdType, priorState: J.JobState): (r: QueueLine)
    ensures LineFields(line).None? ==> r == QueueLine(false, priorId, priorState)
    ensures !r.ok ==> r.state == priorState
    ensures r.ok <==> LineFields(line).Some? && ToInt(LineFields(line).value.0).Some?
                      && StateOf(Lower(LineFields(line).value.1)).Some?
    ensures r.ok ==> r.state in {J.RunningRemote, J.QueuedRemote}
  {
    match LineFields(line)
    case None => QueueLine(false, priorId, priorState)
    case Some((digits, code)) => ReadFields(digits, code, priorState)
  }

  /** The answer for a line whose id and state fields are `digits` and `code`. */
  function ReadFields(digits: string, code: string, priorState: J.JobState): (r: QueueLine)
    requires AllDigits(digits)
    ensures !r.ok ==> r.state == priorState
    ensures r.ok <==> ToInt(digits).Some? && StateOf(Lower(code)).Some?
    ensures r.ok ==> r.state in {J.RunningRemote, J.QueuedRemote}
  {
    var id := IdOrZero(digits);
    if ToInt(digits).None? then QueueLine(false, id, priorState)
    else
      match StateOf(Lower(code))
      case None => QueueLine(false, id, priorState)
      case Some(state) => QueueLine(true, id, state)
  }

  /** Fields whose id converts: the id is taken, and the state is the recognised one or else left alone. */
  lemma ReadFieldsOf(digits: string, code: string, priorState: J.JobState)
    requires AllDigits(digits) && ToInt(digits).Some?
    ensures var state := StateOf(Lower(code));
      ReadFields(digits, code, priorState)
        == QueueLine(state.Some?, ToInt(digits).value, if state.Some? then state.value else priorState)
  {
    assert IdOrZero(digits) == ToInt(digits).value;
  }

  lemma LineFieldsChain(line: string, d: string, t: string, u: string, code: string, rest: string)
    requires LeadingId(line) == Some((d, t)) && ThreeFields(Skip(t, IsNonSpace)) == Some(u)
    requires Word(u) == Some((code, rest))
    ensures LineFields(line) == Some((d, code))
  {
  }

  /** The id with its suffix, and then the rest of the line, which starts with a space. */
  lemma SuffixSkipped(suffix: string, t: string)
    requires AllNonSpace(suffix) && |t| > 0 && t[0] == ' '
    ensures Skip(suffix + t, IsNonSpace) == t
  {
    RunOf(suffix, t, IsNonSpace);
    assert (suffix + t)[|suffix|..] == t;
  }

  /** The five fields of a line, separated by single spaces. */
  lemma FieldsOf(indent: string, d: string, suffix: string, name: string, user: string, time: string,
                 code: string, rest: string)
    requires AllSpace(indent) && |d| > 0 && AllDigits(d)
    requires AllNonSpace(suffix) && (suffix == [] || !IsDigit(suffix[0]))
    requires |name| > 0 && AllNonSpace(name) && |user| > 0 && AllNonSpace(user)
    requires |time| > 0 && AllNonSpace(time)
    requires |code| > 0 && AllWord(code) && (rest == [] || !IsWordChar(rest[0]))
    ensures LineFields(indent + (d + (suffix + (" " + (name + (" " + (user + (" " + (time + (" " + (code + rest)))))))))))
            == Some((d, code))
  {
    var x4 := " " + (code + rest);
    var t := " " + (name + (" " + (user + (" " + (time + x4)))));
    LeadingIdOf(indent, d, suffix + t);
    SuffixSkipped(suffix, t);
    ThreeFieldsOf(name, user, time, x4);
    WordOf(code, rest);
    LineFieldsChain(indent + (d + (suffix + t)), d, suffix + t, x4, code, rest);
  }

  /**
   * A line of qstat output, with any suffix on the job id, is read back as
   * the job id and the state its code stands for, whatever the case of the
   * code and whatever the out-parameters held.
   */
  lemma LineRoundTrip(indent: string, id: nat, suffix: string, name: string, user: string, time: string,
                      code: string, rest: string, priorId: IdType, priorState: J.JobState)
    requires id <= IntMax && Lower(code) in RunningCodes + QueuedCodes
    requires AllSpace(indent) && AllNonSpace(suffix) && (suffix == [] || !IsDigit(suffix[0]))
    requires |name| > 0 && AllNonSpace(name) && |user| > 0 && AllNonSpace(user)
    requires |time| > 0 && AllNonSpace(time)
    requires |code| > 0 && AllWord(code) && (rest == [] || !IsWordChar(rest[0]))
    ensures var r := ParseQueueLine(indent + (Decimal(id) + (suffix + (" " + (name + (" " + (user + (" " + (time + (" " + (code + rest)))))))))),
                                    priorId, priorState);
      r.ok && r.queueId == id && Some(r.state) == StateOf(Lower(code))
  {
    var d := Decimal(id);
    var line := indent + (d + (suffix + (" " + (name + (" " + (user + (" " + (time + (" " + (code + rest))))))))));
    FieldsOf(indent, d, suffix, name, user, time, code, rest);
    ToIntDecimal(id);
    assert ParseQueueLine(line, priorId, priorState) == ReadFields(d, code, priorState);
    ReadFieldsOf(d, code, priorState);
  }

  /** The header and other lines that do not start with an (indented) job id leave the out-parameters alone. */
  lemma NoIdKeepsOutputs(line: string, priorId: IdType, priorState: J.JobState)
    requires var t := Skip(line, IsSpace); t == [] || !IsDigit(t[0])
    ensures ParseQueueLine(line, priorId, priorState) == QueueLine(false, priorId, priorState)
  {
  }
}
