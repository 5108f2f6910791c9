/**
 * The SLURM queue (molequeue/queues/slurm.cpp): reading the job id sbatch
 * prints, reading a job's id and state from a line of squeue output, and
 * the squeue command that asks for the tracked jobs.
 */
module Slurm {
  import opened Wrappers
  import opened IdTypes
  import opened TextOps
  import J = JobStates
  import opened QueueScan
  import ListOps

  const SubmissionCommand: string := "sbatch"
  const KillCommand: string := "scancel"
  const RequestQueueCommand: string := "squeue"
  const LaunchScriptName: string := "job.slurm"

  const Banner: string := "Submitted batch job "

  /**
   * parseQueueId: the pattern ^Submitted batch job (\d+)$ must cover the
   * whole output. On a match the id is what toInt gave (0 when it failed,
   * which answers false); otherwise the out-parameter keeps `prior`.
   */
  function ParseQueueId(output: string, prior: IdType): (r: (bool, IdType))
    ensures !StartsWith(output, Banner) ==> r == (false, prior)
    ensures r.0 <==> StartsWith(output, Banner) && AllDigits(output[|Banner|..])
                     && ToInt(output[|Banner|..]).Some?
    ensures r.0 ==> r.1 == DigitsValue(output[|Banner|..])
  {
    if StartsWith(output, Banner) && |output| > |Banner| && AllDigits(output[|Banner|..]) then
      var digits := output[|Banner|..];
      (ToInt(digits).Some?, IdOrZero(digits))
    else (false, prior)
  }

  /** What sbatch prints, with nothing after the number, reads back as that number. */
  lemma ParseQueueIdOf(id: nat)
    requires id <= IntMax
    ensures forall prior :: ParseQueueId(Banner + Decimal(id), prior) == (true, id)
  {
    var s := Banner + Decimal(id);
    assert s[..|Banner|] == Banner && s[|Banner|..] == Decimal(id);
    ToIntDecimal(id);
  }

  /** Anything after the number, a line break included, makes the whole-string pattern fail. */
  lemma TrailingTextRefused(id: nat, tail: string, prior: IdType)
    requires |tail| > 0 && !IsDigit(tail[0])
    ensures ParseQueueId(Banner + Decimal(id) + tail, prior) == (false, prior)
  {
    var s := Banner + Decimal(id) + tail;
    assert s[..|Banner|] == Banner;
    assert s[|Banner|..][|Decimal(id)|] == tail[0];
  }

  // ---- squeue lines ----

  /**
   * The pattern ^\s*(\d+)\s+\S+\s+\S+\s+\S+\s+(\w+) : the job id, the
   * partition, the job name, the user and the state code.
   */
  function LineFields(line: string): (r: Option<(string, string)>)
    ensures r.Some? ==> |r.value.0| > 0 && AllDigits(r.value.0) && |r.value.1| > 0
  {
    match LeadingId(line)
    case None => None
    case Some((digits, t)) =>
      match ThreeFields(t)
      case None => None
      case Some(u) =>
        match Word(u)
        case None => None
        case Some((code, _)) => Some((digits, code))
  }

  /** Cancelled, completed, completing, failed, node failure, preempted, running, suspended, timed out. */
  const RunningCodes: set<string> := {"ca", "cd", "cg", "f", "nf", "pr", "r", "s", "to"}

  /** Configuring and pending. */
  const QueuedCodes: set<string> := {"cf", "pd"}

  /** The SLURM state codes (already in lower case). */
  function StateOf(code: string): (r: Option<J.JobState>)
    ensures r == Some(J.RunningRemote) <==> code in RunningCodes
    ensures r == Some(J.QueuedRemote) <==> code in QueuedCodes
    ensures r.None? <==> code !in RunningCodes && code !in QueuedCodes
  {
    if code in RunningCodes then Some(J.RunningRemote)
    else if code in QueuedCodes then Some(J.QueuedRemote)
    else None
  }

  /**
   * parseQueueLine: the outputs start as InvalidId and Unknown; a matching
   * line sets the id (0 when toInt fails, which answers false), and a
   * recognised state code sets the state and answers true.
   */
  function ParseQueueLine(line: string): (r: QueueLine)
    ensures LineFields(line).None? ==> r == QueueLine(false, InvalidId, J.Unknown)
    ensures !r.ok ==> r.state == J.Unknown
    ensures r.ok <==> LineFields(line).Some? && ToInt(LineFields(line).value.0).Some?
                      && StateOf(Lower(LineFields(line).value.1)).Some?
    ensures r.ok ==> r.state in {J.RunningRemote, J.QueuedRemote}
  {
    match LineFields(line)
    case None => QueueLine(false, InvalidId, J.Unknown)
    case Some((digits, code)) => ReadFields(digits, code)
  }

  /** The answer for a line whose id and state fields are `digits` and `code`. */
  function ReadFields(digits: string, code: string): (r: QueueLine)
    requires AllDigits(digits)
    ensures !r.ok ==> r.state == J.Unknown
    ensures r.ok <==> ToInt(digits).Some? && StateOf(Lower(code)).Some?
    ensures r.ok ==> r.state in {J.RunningRemote, J.QueuedRemote}
  {
    var id := IdOrZero(digits);
    if ToInt(digits).None? then QueueLine(false, id, J.Unknown)
    else
      match StateOf(Lower(code))
      case None => QueueLine(false, id, J.Unknown)
      case Some(state) => QueueLine(true, id, state)
  }

  /** Fields whose id converts: the id is taken, and the answer is whether the state code was recognised. */
  lemma ReadFieldsOf(digits: string, code: string)
    requires AllDigits(digits) && ToInt(digits).Some?
    ensures var state := StateOf(Lower(code));
      ReadFields(digits, code) == QueueLine(state.Some?, ToInt(digits).value, if state.Some? then state.value else J.Unknown)
  {
    assert IdOrZero(digits) == ToInt(digits).value;
  }

  /** The five fields of a line, separated by single spaces. */
  lemma FieldsOf(indent: string, d: string, partition: string, name: string, user: string, code: string, rest: string)
    requires AllSpace(indent) && |d| > 0 && AllDigits(d)
    requires |partition| > 0 && AllNonSpace(partition) && |name| > 0 && AllNonSpace(name)
    requires |user| > 0 && AllNonSpace(user)
    requires |code| > 0 && AllWord(code) && (rest == [] || !IsWordChar(rest[0]))
    ensures LineFields(indent + (d + (" " + (partition + (" " + (name + (" " + (user + (" " + (code + rest)))))))))) == Some((d, code))
  {
    var x4 := " " + (code + rest);
    var t := " " + (partition + (" " + (name + (" " + (user + x4)))));
    LeadingIdOf(indent, d, t);
    ThreeFieldsOf(partition, name, user, x4);
    WordOf(code, rest);
    LineFieldsChain(indent + (d + t), d, t, x4, code, rest);
  }

  lemma LineFieldsChain(line: string, d: string, t: string, u: string, code: string, rest: string)
    requires LeadingId(line) == Some((d, t)) && ThreeFields(t) == Some(u) && Word(u) == Some((code, rest))
    ensures LineFields(line) == Some((d, code))
  {
  }

  /**
   * A line of squeue output is read back as its job id and the state its
   * code stands for, whatever the case of the code.
   */
  lemma LineRoundTrip(indent: string, id: nat, partition: string, name: string, user: string, code: string, rest: string)
    requires id <= IntMax && Lower(code) in RunningCodes + QueuedCodes
    requires AllSpace(indent) && |code| > 0 && AllWord(code) && (rest == [] || !IsWordChar(rest[0]))
    requires |partition| > 0 && AllNonSpace(partition) && |name| > 0 && AllNonSpace(name)
    requires |user| > 0 && AllNonSpace(user)
    ensures var r := ParseQueueLine(indent + (Decimal(id) + (" " + (partition + (" " + (name + (" " + (user + (" " + (code + rest))))))))));
      r.ok && r.queueId == id && Some(r.state) == StateOf(Lower(code))
  {
    var d := Decimal(id);
    FieldsOf(indent, d, partition, name, user, code, rest);
    ToIntDecimal(id);
    assert ParseQueueLine(indent + (d + (" " + (partition + (" " + (name + (" " + (user + (" " + (code + rest)))))))))) == ReadFields(d, code);
    ReadFieldsOf(d, code);
  }

  /** A line that does not start with an (indented) job id, such as the header, is refused with the initial outputs. */
  lemma NoIdNoJob(line: string)
    requires var t := Skip(line, IsSpace); t == [] || !IsDigit(t[0])
    ensures ParseQueueLine(line) == QueueLine(false, InvalidId, J.Unknown)
  {
  }

  // ---- the status request ----

  /** generateQueueRequestCommand: "squeue -j " and the requested ids, joined by commas. */
  method GenerateQueueRequestCommand(requestQueueCommand: string, jobs: map<IdType, IdType>) returns (command: string)
    ensures command == requestQueueCommand + " -j " + Join(Decimals(RequestedIds(jobs)), ",")
  {
    var ids := RequestIdStrings(ListOps.SortedKeys(jobs.Keys));
    command := requestQueueCommand + " -j " + Join(ids, ",");
  }
}
