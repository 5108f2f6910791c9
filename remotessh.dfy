/**
 * The queues that reach a cluster over SSH (molequeue/queues/remotessh.cpp):
 * the queue status request and what is done with its answer, the
 * bookkeeping after a job submission, and the guard on the remote
 * directory a finished job's files are removed from.
 *
 * The scheduler is one of PBS, SLURM and OAR, and its parsers are those of
 * the Pbs, Slurm and Oar modules. Whether a job is known to the job
 * manager (a valid Job) is the set `validJobs` of MoleQueue ids; whether
 * the queue can reach its server is `hasServer`; whether the SSH command
 * could be started is `executes`. Job state changes go to `stateChanges`,
 * queue ids given to jobs to `queueIdChanges`, and the jobs whose output
 * is fetched (finalizeJobCopyFromServer) to `finalizing`.
 */
module RemoteSsh {
  import opened Wrappers
  import opened IdTypes
  import opened TextOps
  import J = JobStates
  import opened QueueScan
  import ListOps
  import Queues
  import Oar
  import Slurm
  import Pbs
  import FileInfo

  predicate IsNewline(c: char) {
    c == '\n'
  }

  predicate RemoteKind(k: Queues.QueueKind) {
    k == Queues.Pbs || k == Queues.Slurm || k == Queues.Oar
  }

  /**
   * The scheduler's parseQueueLine. The PBS parser leaves its
   * out-parameters alone on lines it refuses, but the caller only reads
   * them after a line is accepted, so any starting values will do.
   */
  function ParseLine(kind: Queues.QueueKind, line: string): QueueLine
    requires RemoteKind(kind)
  {
    if kind == Queues.Pbs then Pbs.ParseQueueLine(line, InvalidId, J.Unknown)
    else if kind == Queues.Slurm then Slurm.ParseQueueLine(line)
    else Oar.ParseQueueLine(line)
  }

  /** The scheduler's parseQueueId; `prior` is whatever the out-parameter held. */
  function ParseId(kind: Queues.QueueKind, output: string, prior: IdType): (bool, IdType)
    requires RemoteKind(kind)
  {
    if kind == Queues.Pbs then Pbs.ParseQueueId(output, prior)
    else if kind == Queues.Slurm then Slurm.ParseQueueId(output, prior)
    else Oar.ParseQueueId(output, prior)
  }

  /** m_jobs.value(queueId, InvalidId). */
  function Tracked(jobs: map<IdType, IdType>, queueId: IdType): (m: IdType)
    ensures m != InvalidId ==> queueId in jobs && jobs[queueId] == m
  {
    if queueId in jobs then jobs[queueId] else InvalidId
  }

  /** The keys of a QMap in its (ascending) order. */
  function SortedIds(ids: set<IdType>): (r: seq<IdType>)
    ensures |r| == |ids| && ListOps.Increasing(r)
    ensures forall x :: x in r <==> x in ids
  {
    var keys := ListOps.SortedKeys(ids);
    assert forall i :: 0 <= i < |keys| ==> keys[i] in ids;
    keys
  }

  // ---- the answer to a status request ----

  /** The lines of the answer, each read by the scheduler's parseQueueLine. */
  function Parsed(kind: Queues.QueueKind, lines: seq<string>): (rs: seq<QueueLine>)
    requires RemoteKind(kind)
    ensures |rs| == |lines| && forall i :: 0 <= i < |lines| ==> rs[i] == ParseLine(kind, lines[i])
  {
    seq(|lines|, i requires 0 <= i < |lines| => ParseLine(kind, lines[i]))
  }

  /**
   * The job a read line speaks of: its queue id, MoleQueue id and state,
   * when the line is accepted and names a job the queue tracks.
   */
  function Hit(jobs: map<IdType, IdType>, r: QueueLine): (h: Option<(IdType, IdType, J.JobState)>)
    ensures h.Some? <==> r.ok && Tracked(jobs, r.queueId) != InvalidId
    ensures h.Some? ==> h.value == (r.queueId, jobs[r.queueId], r.state)
  {
    if r.ok && Tracked(jobs, r.queueId) != InvalidId then Some((r.queueId, Tracked(jobs, r.queueId), r.state))
    else None
  }

  /** The tracked queue ids the read lines speak of. */
  function Seen(jobs: map<IdType, IdType>, rs: seq<QueueLine>): (s: set<IdType>)
    ensures forall q :: q in s ==> q in jobs && jobs[q] != InvalidId
  {
    if rs == [] then {}
    else
      var h := Hit(jobs, rs[|rs| - 1]);
      Seen(jobs, rs[..|rs| - 1]) + (if h.Some? then {h.value.0} else {})
  }

  /** The state changes the read lines make: one per line on a tracked job the job manager knows, in order. */
  function Updates(jobs: map<IdType, IdType>, validJobs: set<IdType>, rs: seq<QueueLine>): seq<(IdType, J.JobState)> {
    if rs == [] then []
    else
      var h := Hit(jobs, rs[|rs| - 1]);
      Updates(jobs, validJobs, rs[..|rs| - 1])
        + (if h.Some? && h.value.1 in validJobs then [(h.value.1, h.value.2)] else [])
  }

  /** A job seen in part of the answer is seen in all of it. */
  lemma {:induction false} SeenGrows(jobs: map<IdType, IdType>, rs: seq<QueueLine>, n: nat)
    requires n <= |rs|
    ensures Seen(jobs, rs[..n]) <= Seen(jobs, rs)
    decreases |rs|
  {
    if n < |rs| {
      SeenGrows(jobs, rs[..|rs| - 1], n);
      assert rs[..|rs| - 1][..n] == rs[..n];
    } else {
      assert rs[..n] == rs;
    }
  }

  /** One more line of the answer adds what Hit finds in it. */
  lemma LineStep(jobs: map<IdType, IdType>, validJobs: set<IdType>, rs: seq<QueueLine>, i: nat)
    requires i < |rs|
    ensures var h := Hit(jobs, rs[i]);
      && Seen(jobs, rs[..i + 1]) == Seen(jobs, rs[..i]) + (if h.Some? then {h.value.0} else {})
      && Updates(jobs, validJobs, rs[..i + 1])
         == Updates(jobs, validJobs, rs[..i]) + (if h.Some? && h.value.1 in validJobs then [(h.value.1, h.value.2)] else [])
  {
    assert rs[..i + 1][..i] == rs[..i];
  }

  /**
   * The line loop of handleQueueUpdate: every accepted line on a tracked
   * job takes that job off the list of ids not yet seen and, when the job
   * manager knows the job, sets its state. Without a server the loop gives
   * up at the first such line.
   */
  method ScanLines(jobs: map<IdType, IdType>, validJobs: set<IdType>, hasServer: bool, rs: seq<QueueLine>)
    returns (aborted: bool, remaining: seq<IdType>, updates: seq<(IdType, J.JobState)>)
    ensures aborted <==> !hasServer && Seen(jobs, rs) != {}
    ensures !aborted ==> remaining == SortedIds(jobs.Keys - Seen(jobs, rs))
    ensures !aborted ==> updates == Updates(jobs, validJobs, rs)
  {
    var left: seq<int> := SortedIds(jobs.Keys);
    updates := [];
    var i := 0;
    while i < |rs|
      invariant 0 <= i <= |rs|
      invariant ListOps.Increasing(left)
      invariant forall x :: x in left <==> x in jobs && x !in Seen(jobs, rs[..i])
      invariant updates == Updates(jobs, validJobs, rs[..i])
      invariant !hasServer ==> Seen(jobs, rs[..i]) == {}
    {
      LineStep(jobs, validJobs, rs, i);
      var r := rs[i];
      if r.ok {
        var moleQueueId := Tracked(jobs, r.queueId);
        if moleQueueId != InvalidId {
          ListOps.RemoveFirstIncreasing(left, r.queueId);
          ListOps.RemoveFirstDistinct<int>(left, r.queueId);
          left := ListOps.RemoveFirst<int>(left, r.queueId);
          if !hasServer {
            SeenGrows(jobs, rs, i + 1);
            return true, [], updates;
          }
          if moleQueueId in validJobs {
            updates := updates + [(moleQueueId, r.state)];
          }
        }
      }
      i := i + 1;
    }
    assert rs[..|rs|] == rs;
    ListOps.IncreasingUnique(left, SortedIds(jobs.Keys - Seen(jobs, rs)));
    remaining := left;
    aborted := false;
  }

  /** The tracked ids among qs whose mapping beginFinalizeJob removes: those not mapped to InvalidId. */
  function Dropped(jobs: map<IdType, IdType>, qs: seq<IdType>): (d: set<IdType>)
    ensures forall q :: q in d <==> q in qs && Tracked(jobs, q) != InvalidId
  {
    set q | q in qs && Tracked(jobs, q) != InvalidId
  }

  /** The jobs whose output beginFinalizeJob fetches for each of qs, in order. */
  function Finals(jobs: map<IdType, IdType>, validJobs: set<IdType>, hasServer: bool, qs: seq<IdType>): seq<IdType> {
    if qs == [] then []
    else
      var m := Tracked(jobs, qs[|qs| - 1]);
      Finals(jobs, validJobs, hasServer, qs[..|qs| - 1])
        + (if m != InvalidId && hasServer && m in validJobs then [m] else [])
  }

  /** One more id finalized: it is still tracked as at the start, and is dropped and fetched as the sets say. */
  lemma FinalizeStep(jobs0: map<IdType, IdType>, validJobs: set<IdType>, hasServer: bool, qs: seq<IdType>, i: nat)
    requires i < |qs| && ListOps.Distinct(qs)
    ensures var now, m := jobs0 - Dropped(jobs0, qs[..i]), Tracked(jobs0, qs[i]);
      Tracked(now, qs[i]) == m
      && (if m == InvalidId then now else now - {qs[i]}) == jobs0 - Dropped(jobs0, qs[..i + 1])
      && Finals(jobs0, validJobs, hasServer, qs[..i + 1])
         == Finals(jobs0, validJobs, hasServer, qs[..i]) + (if m != InvalidId && hasServer && m in validJobs then [m] else [])
  {
    assert qs[..i + 1][..i] == qs[..i];
    assert qs[i] !in qs[..i];
    assert Dropped(jobs0, qs[..i + 1]) == Dropped(jobs0, qs[..i]) + (if Tracked(jobs0, qs[i]) != InvalidId then {qs[i]} else {});
  }

  /** What handleQueueUpdate does once the answer's exit code is accepted. */
  datatype Outcome = Outcome(jobs: map<IdType, IdType>, updates: seq<(IdType, J.JobState)>, finals: seq<IdType>)

  /**
   * The whole of handleQueueUpdate after the exit code check, on the
   * answer's non-empty lines as read: when it gives up for want of a
   * server nothing changes; otherwise the lines' state changes are made,
   * and every tracked id no line spoke of is finalized, in ascending order.
   */
  function UpdateOutcome(jobs: map<IdType, IdType>, validJobs: set<IdType>, hasServer: bool, rs: seq<QueueLine>): Outcome {
    var seen := Seen(jobs, rs);
    if !hasServer && seen != {} then Outcome(jobs, [], [])
    else
      var left := SortedIds(jobs.Keys - seen);
      Outcome(jobs - Dropped(jobs, left), Updates(jobs, validJobs, rs), Finals(jobs, validJobs, hasServer, left))
  }

  /**
   * A tracked job that no line of the answer speaks of has left the queue:
   * its mapping is removed and, when the server knows the job, its output
   * is fetched. A job some line speaks of stays tracked.
   */
  lemma LeftJobsFinalized(jobs: map<IdType, IdType>, validJobs: set<IdType>, hasServer: bool, rs: seq<QueueLine>, q: IdType)
    requires hasServer && q in jobs && jobs[q] != InvalidId
    ensures var o := UpdateOutcome(jobs, validJobs, hasServer, rs);
      && (q !in Seen(jobs, rs) ==> q !in o.jobs && (jobs[q] in validJobs ==> jobs[q] in o.finals))
      && (q in Seen(jobs, rs) ==> q in o.jobs && o.jobs[q] == jobs[q])
  {
    var left := SortedIds(jobs.Keys - Seen(jobs, rs));
    if q !in Seen(jobs, rs) {
      assert q in left;
      if jobs[q] in validJobs {
        FinalsHas(jobs, validJobs, hasServer, left, q);
      }
    }
  }

  lemma {:induction false} FinalsHas(jobs: map<IdType, IdType>, validJobs: set<IdType>, hasServer: bool, qs: seq<IdType>, q: IdType)
    requires q in qs && hasServer && Tracked(jobs, q) != InvalidId && Tracked(jobs, q) in validJobs
    ensures Tracked(jobs, q) in Finals(jobs, validJobs, hasServer, qs)
  {
    if qs[|qs| - 1] != q {
      assert q in qs[..|qs| - 1] by {
        var i :| 0 <= i < |qs| && qs[i] == q;
        assert qs[..|qs| - 1][i] == q;
      }
      FinalsHas(jobs, validJobs, hasServer, qs[..|qs| - 1], q);
    }
  }

  /** A line accepted on a tracked job the job manager knows sets that job to the line's state. */
  lemma {:induction false} LineStateApplied(jobs: map<IdType, IdType>, validJobs: set<IdType>, rs: seq<QueueLine>, i: nat)
    requires i < |rs| && rs[i].ok && Tracked(jobs, rs[i].queueId) in validJobs - {InvalidId}
    ensures rs[i].queueId in Seen(jobs, rs)
    ensures (jobs[rs[i].queueId], rs[i].state) in Updates(jobs, validJobs, rs)
    decreases |rs|
  {
    if i < |rs| - 1 {
      assert rs[..|rs| - 1][i] == rs[i];
      LineStateApplied(jobs, validJobs, rs[..|rs| - 1], i);
    }
  }

  // ---- the status request command ----

  /**
   * The status request for the tracked queue ids. QueueRemoteSsh (and so
   * PBS) lists every id followed by a space; SLURM lists the ids that are
   * not InvalidId after "-j", separated by commas; OAR separates them by
   * " -j ". The ids come in the ascending order of QMap::keys.
   */
  function RequestCommand(kind: Queues.QueueKind, requestQueueCommand: string, jobs: map<IdType, IdType>): string {
    if kind == Queues.Slurm then requestQueueCommand + " -j " + Join(Decimals(RequestedIds(jobs)), ",")
    else if kind == Queues.Oar then requestQueueCommand + " " + Join(Decimals(RequestedIds(jobs)), " -j ")
    else requestQueueCommand + " " + Spaced(SortedIds(jobs.Keys))
  }

  /** Each id in decimal, followed by a space. */
  function Spaced(ids: seq<IdType>): string {
    if ids == [] then "" else Spaced(ids[..|ids| - 1]) + Decimal(ids[|ids| - 1]) + " "
  }

  /** The loop of generateQueueRequestCommand: each id in turn, in decimal, and a space. */
  method SpacedIds(ids: seq<IdType>) returns (idString: string)
    ensures idString == Spaced(ids)
  {
    idString := "";
    var i := 0;
    while i < |ids|
      invariant 0 <= i <= |ids|
      invariant idString == Spaced(ids[..i])
    {
      SpacedStep(ids, i);
      idString := idString + Decimal(ids[i]) + " ";
      i := i + 1;
    }
    assert ids[..|ids|] == ids;
  }

  lemma SpacedStep(ids: seq<IdType>, i: nat)
    requires i < |ids|
    ensures Spaced(ids[..i + 1]) == Spaced(ids[..i]) + Decimal(ids[i]) + " "
  {
    assert ids[..i + 1][..i] == ids[..i];
  }

  /** The ids in decimal, joined by single spaces. */
  function DecimalIds(ids: seq<IdType>): (r: seq<string>)
    ensures |r| == |ids| && forall i :: 0 <= i < |ids| ==> r[i] == Decimal(ids[i])
  {
    if ids == [] then [] else DecimalIds(ids[..|ids| - 1]) + [Decimal(ids[|ids| - 1])]
  }

  /**
   * The id list of the request, split on spaces, is the ids in decimal,
   * one word each (InvalidId included).
   */
  lemma SpacedWords(ids: seq<IdType>)
    ensures Split(Spaced(ids), IsSpace) == DecimalIds(ids)
  {
    var words := DecimalIds(ids);
    forall i | 0 <= i < |words| ensures |words[i]| > 0 && NoneOf(words[i], IsSpace) {
      assert AllDigits(Decimal(ids[i]));
    }
    SpacedJoin(ids);
    SplitJoinRoundTrip(words, ' ', IsSpace);
    if ids != [] {
      SplitTrailing(JoinWith(words, ' '), IsSpace);
    }
  }

  /** The space-terminated list is the space-joined one with one more space. */
  lemma {:induction false} SpacedJoin(ids: seq<IdType>)
    ensures ids != [] ==> Spaced(ids) == JoinWith(DecimalIds(ids), ' ') + " "
    decreases |ids|
  {
    if |ids| > 1 {
      var init := ids[..|ids| - 1];
      SpacedJoin(init);
      JoinWithSnoc(DecimalIds(init), Decimal(ids[|ids| - 1]), ' ');
    } else if |ids| == 1 {
      assert Spaced(ids) == Spaced([]) + Decimal(ids[0]) + " ";
    }
  }

  /** A trailing separator adds no part. */
  lemma SplitTrailing(s: string, sep: char -> bool)
    requires sep(' ')
    ensures Split(s + " ", sep) == Split(s, sep)
  {
    SplitFromTrailing(s, sep, []);
  }

  lemma {:induction false} SplitFromTrailing(s: string, sep: char -> bool, cur: string)
    requires sep(' ') && NoneOf(cur, sep)
    ensures SplitFrom(s + " ", sep, cur) == SplitFrom(s, sep, cur)
    decreases |s|
  {
    if s == [] {
      assert [] + " " == " " && " "[1..] == [];
    } else {
      assert (s + " ")[0] == s[0] && (s + " ")[1..] == s[1..] + " ";
      if sep(s[0]) {
        SplitFromTrailing(s[1..], sep, []);
      } else {
        SplitFromTrailing(s[1..], sep, cur + [s[0]]);
      }
    }
  }

  // ---- after a submission ----

  /** What the submission handler leaves: the queue's tables, and the state and queue id given to the job. */
  datatype Submission = Submission(jobs: map<IdType, IdType>, failures: map<IdType, int>, pending: seq<IdType>,
                                   state: Option<J.JobState>, queueId: Option<IdType>)

  /**
   * The submission handler as written: `parsed` is what parseQueueId
   * answered and left in its out-parameter, and the answer is never read.
   * An unknown job changes nothing. A non-zero exit code counts a failure,
   * queues the job again while retries remain, and marks it Error;
   * otherwise the job is Submitted, its failures are forgotten and the
   * out-parameter is recorded as its queue id.
   */
  function SubmissionAsWritten(exitCode: int, parsed: (bool, IdType), jobValid: bool, moleQueueId: IdType,
                               jobs: map<IdType, IdType>, failures: map<IdType, int>, pending: seq<IdType>): Submission
  {
    if !jobValid then Submission(jobs, failures, pending, None, None)
    else if exitCode != 0 then
      var (failures', retry) := Queues.FailureStep(failures, moleQueueId);
      Submission(jobs, failures', pending + (if retry then [moleQueueId] else []), Some(J.Error), None)
    else
      Submission(jobs[parsed.1 := moleQueueId], failures - {moleQueueId}, pending, Some(J.Submitted), Some(parsed.1))
  }

  /**
   * When sbatch's answer cannot be read (here it ends in a line break, which
   * the whole-string pattern refuses), the job is still Submitted and
   * whatever the uninitialised out-parameter held becomes its queue id.
   */
  lemma UnreadIdRecorded(id: nat, garbage: IdType, moleQueueId: IdType)
    requires id <= IntMax
    ensures var parsed := ParseId(Queues.Slurm, Slurm.Banner + Decimal(id) + "\n", garbage);
      !parsed.0 &&
      SubmissionAsWritten(0, parsed, true, moleQueueId, map[], map[], []).jobs == map[garbage := moleQueueId]
  {
    Slurm.TrailingTextRefused(id, "\n", garbage);
  }

  /**
   * The submission handler as intended: as written, except that an answer
   * parseQueueId refuses leaves no queue id behind and marks the job Error.
   */
  function Submitted(exitCode: int, parsed: (bool, IdType), jobValid: bool, moleQueueId: IdType,
                     jobs: map<IdType, IdType>, failures: map<IdType, int>, pending: seq<IdType>): (r: Submission)
    ensures jobValid && exitCode == 0 && parsed.0 ==>
      r.jobs == jobs[parsed.1 := moleQueueId] && r.state == Some(J.Submitted) && r.queueId == Some(parsed.1)
    ensures !(jobValid && exitCode == 0 && parsed.0) ==> r.jobs == jobs && r.queueId.None?
    ensures jobValid && exitCode != 0 ==>
      && r.state == Some(J.Error) && r.jobs == jobs
      && r.failures == Queues.FailureStep(failures, moleQueueId).0
      && r.pending == pending + (if Queues.FailureStep(failures, moleQueueId).1 then [moleQueueId] else [])
    ensures !jobValid ==> r == Submission(jobs, failures, pending, None, None)
  {
    if jobValid && exitCode == 0 && !parsed.0 then Submission(jobs, failures, pending, Some(J.Error), None)
    else SubmissionAsWritten(exitCode, parsed, jobValid, moleQueueId, jobs, failures, pending)
  }

  // ---- the remote directory ----

  /**
   * cleanRemoteDirectory: the job's directory is the working directory
   * base, a '/' and the MoleQueue id, cleaned; a directory that simplifies
   * to "/" is refused, and any other is removed with "rm -rf".
   */
  function CleanRemoteDirectory(workingDirectoryBase: string, moleQueueId: IdType): (command: Option<string>)
    ensures var dir := FileInfo.CleanPath(workingDirectoryBase + "/" + Decimal(moleQueueId));
      && (command.None? <==> FileInfo.Simplified(dir) == "/")
      && (command.Some? ==> command.value == "rm -rf " + dir)
  {
    var remoteDir := FileInfo.CleanPath(workingDirectoryBase + "/" + Decimal(moleQueueId));
    if FileInfo.Simplified(remoteDir) == "/" then None else Some("rm -rf " + remoteDir)
  }

  /**
   * The guard never fires: whatever the working directory base, the
   * cleaned directory ends in the job's id, so the command always removes
   * a directory named after the job.
   */
  lemma CleanRemoteDirectoryRemovesJobDir(workingDirectoryBase: string, moleQueueId: IdType)
    ensures var command := CleanRemoteDirectory(workingDirectoryBase, moleQueueId);
      command.Some? && exists dir :: command.value == "rm -rf " + dir && FileInfo.FileName(dir) == Decimal(moleQueueId)
  {
    var d := Decimal(moleQueueId);
    DecimalIsPlainName(moleQueueId);
    assert workingDirectoryBase + "/" + d == workingDirectoryBase + ("/" + d);
    var dir := FileInfo.CleanPath(workingDirectoryBase + ("/" + d));
    FileInfo.CleanPathKeepsLast(workingDirectoryBase, d);
    FileInfo.SimplifiedKeepsLast(dir);
  }

  /** An id in decimal is a plain file name that ends in neither white space nor '/'. */
  lemma DecimalIsPlainName(id: nat)
    ensures var d := Decimal(id);
      '/' !in d && d != "." && d != ".." && !IsSpace(d[|d| - 1]) && d[|d| - 1] != '/'
  {
    var d := Decimal(id);
    assert IsDigit(d[0]) && IsDigit(d[|d| - 1]);
  }

  // ---- the queue ----

  /** The request step of requestQueueUpdate as written: (checking flag after, command sent). */
  function RequestStepAsWritten(checking: bool, tracking: bool, executes: bool): (bool, bool) {
    if checking || !tracking then (checking, false)
    else (true, executes)
  }

  /**
   * When the SSH command cannot be started the checking flag stays set, and
   * as handleQueueUpdate is never called for it, no later request sends
   * anything again.
   */
  lemma FailedStartBlocksRequests()
    ensures RequestStepAsWritten(false, true, false) == (true, false)
    ensures forall tracking, executes :: RequestStepAsWritten(true, tracking, executes) == (true, false)
  {
  }

  /**
   * The request step as intended: no request while one is running or while
   * no job is tracked; a request that cannot be started clears the flag
   * again.
   */
  function RequestStep(checking: bool, tracking: bool, executes: bool): (r: (bool, bool))
    ensures r.1 <==> !checking && tracking && executes
    ensures r.0 <==> checking || r.1
  {
    if checking || !tracking then (checking, false)
    else (executes, executes)
  }

  class RemoteQueue {
    const base: Queues.Queue
    const requestQueueCommand: string
    var allowedExitCodes: seq<int>
    var checking: bool
    var pendingSubmission: seq<IdType>
    var stateChanges: seq<(IdType, J.JobState)>
    var queueIdChanges: seq<(IdType, IdType)>
    var finalizing: seq<IdType>

    ghost predicate Valid()
      reads this, base, base.programs.Values
    {
      base.Valid() && RemoteKind(base.kind)
    }

    /** A remote queue accepts exit code 0 from its status request; PBS also accepts its own codes. */
    constructor (base: Queues.Queue, requestQueueCommand: string, laterPbs: bool)
      requires base.Valid() && RemoteKind(base.kind)
      ensures Valid() && this.base == base && this.requestQueueCommand == requestQueueCommand
      ensures allowedExitCodes == if base.kind == Queues.Pbs then Pbs.AllowedExitCodes(laterPbs) else [0]
      ensures !checking && pendingSubmission == [] && stateChanges == [] && queueIdChanges == [] && finalizing == []
    {
      this.base := base;
      this.requestQueueCommand := requestQueueCommand;
      allowedExitCodes := if base.kind == Queues.Pbs then Pbs.AllowedExitCodes(laterPbs) else [0];
      checking := false;
      pendingSubmission, stateChanges, queueIdChanges, finalizing := [], [], [], [];
    }

    /**
     * generateQueueRequestCommand as each scheduler has it: SLURM and OAR
     * override the one of QueueRemoteSsh, which PBS keeps.
     */
    method GenerateQueueRequestCommand() returns (command: string)
      ensures command == RequestCommand(base.kind, requestQueueCommand, base.jobs)
    {
      if base.kind == Queues.Slurm {
        command := Slurm.GenerateQueueRequestCommand(requestQueueCommand, base.jobs);
      } else if base.kind == Queues.Oar {
        command := Oar.GenerateQueueRequestCommand(requestQueueCommand, base.jobs);
      } else {
        var idString := SpacedIds(SortedIds(base.jobs.Keys));
        command := requestQueueCommand + " " + idString;
      }
    }

    /**
     * requestQueueUpdate: nothing while a check is running or while no job
     * is tracked; otherwise the flag is set and the request command is
     * sent when the SSH command starts. A command that cannot be started
     * clears the flag (see RequestStepAsWritten for the code as written).
     */
    method RequestQueueUpdate(executes: bool) returns (sent: Option<string>)
      modifies this
      ensures (checking, sent.Some?) == RequestStep(old(checking), |base.jobs| > 0, executes)
      ensures sent.Some? ==> sent.value == RequestCommand(base.kind, requestQueueCommand, base.jobs)
      ensures pendingSubmission == old(pendingSubmission) && stateChanges == old(stateChanges)
      ensures finalizing == old(finalizing) && allowedExitCodes == old(allowedExitCodes)
    {
      sent := None;
      if !checking && |base.jobs| > 0 {
        checking := true;
        var command := GenerateQueueRequestCommand();
        if executes {
          sent := Some(command);
        } else {
          checking := false;
        }
      }
    }

    /**
     * beginFinalizeJob: an id the queue does not track (or maps to
     * InvalidId) is ignored; otherwise its mapping is removed, and the
     * job's output is fetched when the server is there and knows the job.
     */
    method BeginFinalizeJob(queueId: IdType, hasServer: bool, validJobs: set<IdType>)
      requires Valid()
      modifies this, base
      ensures Valid()
      ensures var m := Tracked(old(base.jobs), queueId);
        base.jobs == (if m == InvalidId then old(base.jobs) else old(base.jobs) - {queueId}) &&
        finalizing == old(finalizing) + (if m != InvalidId && hasServer && m in validJobs then [m] else [])
      ensures base.failureTracker == old(base.failureTracker) && base.programs == old(base.programs)
      ensures checking == old(checking) && stateChanges == old(stateChanges) && pendingSubmission == old(pendingSubmission)
      ensures queueIdChanges == old(queueIdChanges) && allowedExitCodes == old(allowedExitCodes)
    {
      var moleQueueId := Tracked(base.jobs, queueId);
      if moleQueueId == InvalidId {
        return;
      }
      base.ForgetQueueId(queueId);
      if !hasServer || moleQueueId !in validJobs {
        return;
      }
      finalizing := finalizing + [moleQueueId];
    }

    /** beginFinalizeJob for each of the ids, in order. */
    method FinalizeAll(qs: seq<IdType>, hasServer: bool, validJobs: set<IdType>)
      requires Valid() && ListOps.Distinct(qs)
      modifies this, base
      ensures Valid()
      ensures base.jobs == old(base.jobs) - Dropped(old(base.jobs), qs)
      ensures finalizing == old(finalizing) + Finals(old(base.jobs), validJobs, hasServer, qs)
      ensures base.failureTracker == old(base.failureTracker) && base.programs == old(base.programs)
      ensures checking == old(checking) && stateChanges == old(stateChanges) && pendingSubmission == old(pendingSubmission)
      ensures queueIdChanges == old(queueIdChanges) && allowedExitCodes == old(allowedExitCodes)
    {
      ghost var jobs0 := base.jobs;
      ghost var finalizing0 := finalizing;
      var i := 0;
      while i < |qs|
        invariant 0 <= i <= |qs| && Valid()
        invariant base.jobs == jobs0 - Dropped(jobs0, qs[..i])
        invariant finalizing == finalizing0 + Finals(jobs0, validJobs, hasServer, qs[..i])
        invariant base.failureTracker == old(base.failureTracker) && base.programs == old(base.programs)
        invariant checking == old(checking) && stateChanges == old(stateChanges) && pendingSubmission == old(pendingSubmission)
        invariant queueIdChanges == old(queueIdChanges) && allowedExitCodes == old(allowedExitCodes)
      {
        FinalizeStep(jobs0, validJobs, hasServer, qs, i);
        BeginFinalizeJob(qs[i], hasServer, validJobs);
        i := i + 1;
      }
      assert qs[..|qs|] == qs;
    }

    /**
     * handleQueueUpdate: an exit code the queue does not accept only
     * clears the checking flag. Otherwise the answer is split into its
     * non-empty lines and handled as UpdateOutcome says, and the flag is
     * cleared.
     */
    method HandleQueueUpdate(exitCode: int, output: string, hasServer: bool, validJobs: set<IdType>)
      requires Valid()
      modifies this, base
      ensures Valid() && !checking
      ensures exitCode !in allowedExitCodes ==>
        base.jobs == old(base.jobs) && stateChanges == old(stateChanges) && finalizing == old(finalizing)
      ensures exitCode in allowedExitCodes ==>
        var o := UpdateOutcome(old(base.jobs), validJobs, hasServer, Parsed(base.kind, Split(output, IsNewline)));
        base.jobs == o.jobs && stateChanges == old(stateChanges) + o.updates && finalizing == old(finalizing) + o.finals
      ensures base.failureTracker == old(base.failureTracker) && base.programs == old(base.programs)
      ensures pendingSubmission == old(pendingSubmission) && allowedExitCodes == old(allowedExitCodes)
    {
      if exitCode !in allowedExitCodes {
        checking := false;
        return;
      }
      var lines := Split(output, IsNewline);
      var aborted, remaining, updates := ScanLines(base.jobs, validJobs, hasServer, Parsed(base.kind, lines));
      if aborted {
        checking := false;
        return;
      }
      stateChanges := stateChanges + updates;
      FinalizeAll(remaining, hasServer, validJobs);
      checking := false;
    }

    /**
     * The submission handler, as intended (see Submitted): the failure
     * counter, the retry list, the queue id table and the job's state and
     * queue id change as Submitted says.
     */
    method HandleSubmissionReply(exitCode: int, parsed: (bool, IdType), jobValid: bool, moleQueueId: IdType)
      requires Valid()
      modifies this, base
      ensures Valid()
      ensures var r := Submitted(exitCode, parsed, jobValid, moleQueueId, old(base.jobs), old(base.failureTracker),
                                 old(pendingSubmission));
        base.jobs == r.jobs && base.failureTracker == r.failures && pendingSubmission == r.pending &&
        stateChanges == old(stateChanges) + (if r.state.Some? then [(moleQueueId, r.state.value)] else []) &&
        queueIdChanges == old(queueIdChanges) + (if r.queueId.Some? then [(moleQueueId, r.queueId.value)] else [])
      ensures checking == old(checking) && finalizing == old(finalizing) && base.programs == old(base.programs)
    {
      if !jobValid {
        return;
      }
      if exitCode != 0 {
        var retry := base.AddJobFailure(moleQueueId);
        if retry {
          pendingSubmission := pendingSubmission + [moleQueueId];
        }
        stateChanges := stateChanges + [(moleQueueId, J.Error)];
        return;
      }
      if !parsed.0 {
        stateChanges := stateChanges + [(moleQueueId, J.Error)];
        return;
      }
      stateChanges := stateChanges + [(moleQueueId, J.Submitted)];
      base.ClearJobFailures(moleQueueId);
      queueIdChanges := queueIdChanges + [(moleQueueId, parsed.1)];
      base.RecordQueueId(parsed.1, moleQueueId);
    }
  }
}
