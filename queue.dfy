/**
 * A queue (molequeue/app/queue.cpp): its programs keyed by name, the table
 * from queue job ids to MoleQueue ids, the per-job failure counter that
 * bounds resubmission, the removal of unhandled keywords from launch
 * scripts, and the JSON settings.
 *
 * The queue's type (the subclass the queue manager created) is a
 * QueueKind; the settings file, the log and the configuration directory
 * are left to the caller, which passes the directory in.
 */
module Queues {
  import opened Wrappers
  import opened IdTypes
  import opened JsonValue
  import opened TextOps
  import Programs

  /** The queue types the queue manager can create. */
  datatype QueueKind = Local | Sge | Pbs | Slurm | Oar | Uit

  /** typeName(): each queue type is known by the name it is created under. */
  function TypeName(k: QueueKind): (n: string)
    ensures forall k2 :: TypeName2(k2) == n ==> k2 == k
  {
    TypeName2(k)
  }

  function TypeName2(k: QueueKind): string {
    match k
    case Local => "Local"
    case Sge => "Sun Grid Engine"
    case Pbs => "PBS/Torque"
    case Slurm => "SLURM"
    case Oar => "OAR"
    case Uit => "ezHPC UIT"
  }

  datatype QueueSignal =
    | ProgramAdded(name: string, program: Programs.Program)
    | ProgramRemoved(name: string, program: Programs.Program)
    | ProgramRenamed(newName: string, program: Programs.Program, oldName: string)

  /** The number of failures a job may have before it is given up. */
  const MaxFailures: int := 3

  /**
   * addJobFailure on the failure counters: the first failure is recorded as
   * 1; a later one is counted, and once the count passes MaxFailures the
   * entry is cleared and the job is refused.
   */
  function FailureStep(tracker: map<IdType, int>, id: IdType): (r: (map<IdType, int>, bool))
    ensures r.1 <==> id !in tracker || tracker[id] < MaxFailures
    ensures r.1 ==> id in r.0 && r.0[id] == (if id in tracker then tracker[id] + 1 else 1)
    ensures !r.1 ==> r.0 == tracker - {id}
    ensures forall other :: other != id ==> (other in r.0 <==> other in tracker)
    ensures forall other :: other != id && other in tracker ==> r.0[other] == tracker[other]
  {
    if id !in tracker then (tracker[id := 1], true)
    else
      var failures := tracker[id] + 1;
      if failures > MaxFailures then (tracker - {id}, false)
      else (tracker[id := failures], true)
  }

  /** Every counter lies between 1 and MaxFailures. */
  predicate Bounded(tracker: map<IdType, int>) {
    forall id :: id in tracker ==> 1 <= tracker[id] <= MaxFailures
  }

  /** A failure keeps every counter in bounds. */
  lemma FailureStepBounded(tracker: map<IdType, int>, id: IdType)
    requires Bounded(tracker)
    ensures Bounded(FailureStep(tracker, id).0)
  {
  }

  /**
   * A job with no failures recorded is accepted on its first three failures
   * and refused on the fourth, which also forgets it; other jobs' counters
   * are untouched throughout.
   */
  lemma {:induction false} FourthFailureRefused(tracker: map<IdType, int>, id: IdType)
    requires id !in tracker
    ensures var s1 := FailureStep(tracker, id);
            var s2 := FailureStep(s1.0, id);
            var s3 := FailureStep(s2.0, id);
            var s4 := FailureStep(s3.0, id);
            s1.1 && s2.1 && s3.1 && !s4.1 && s4.0 == tracker
  {
    var s1 := FailureStep(tracker, id);
    assert s1.0 == tracker[id := 1];
    var s2 := FailureStep(s1.0, id);
    assert s2.0 == tracker[id := 2];
    var s3 := FailureStep(s2.0, id);
    assert s3.0 == tracker[id := 3];
    var s4 := FailureStep(s3.0, id);
    assert s4.0 == tracker[id := 3] - {id};
    assert tracker[id := 3] - {id} == tracker;
  }

  // Unhandled keywords. Queue::replaceKeywords removes every match of the
  // pattern [^$]?(\${2,3}[^$\s]+\${2,3})[^$]? : two or three '$', a
  // non-empty run of characters that are neither '$' nor white space, and
  // two or three '$' again.

  /** A character of a keyword's name: neither '$' nor white space. */
  predicate IsKeywordChar(c: char) {
    c != '$' && !IsSpace(c)
  }

  /** The end of the run of keyword characters that starts at k. */
  function RunEnd(s: string, k: nat): (e: nat)
    requires k <= |s|
    ensures k <= e <= |s|
    ensures forall i :: k <= i < e ==> IsKeywordChar(s[i])
    ensures e < |s| ==> !IsKeywordChar(s[e])
    decreases |s| - k
  {
    if k == |s| || !IsKeywordChar(s[k]) then k else RunEnd(s, k + 1)
  }

  /** "$$", a non-empty run of keyword characters, "$$" begin at i. */
  predicate TokenAt(s: string, i: nat) {
    i + 2 <= |s| && s[i] == '$' && s[i + 1] == '$' &&
    var e := RunEnd(s, i + 2);
    e > i + 2 && e + 2 <= |s| && s[e] == '$' && s[e + 1] == '$'
  }

  /** The captured keyword can begin at i, with two or with three '$'. */
  predicate KeywordAt(s: string, i: nat) {
    TokenAt(s, i) || (i + 1 < |s| && s[i] == '$' && TokenAt(s, i + 1))
  }

  /** No keyword is left anywhere in s. */
  predicate NoKeyword(s: string) {
    forall i: nat :: i < |s| ==> !TokenAt(s, i)
  }

  /** The first position at or after k where a keyword begins. */
  function FindKeyword(s: string, k: nat): (r: Option<nat>)
    requires k <= |s|
    ensures r.Some? ==> k <= r.value < |s| && KeywordAt(s, r.value)
    ensures r.Some? ==> forall i: nat :: k <= i < r.value ==> !KeywordAt(s, i)
    ensures r.None? ==> forall i: nat :: k <= i < |s| ==> !KeywordAt(s, i)
    decreases |s| - k
  {
    if k == |s| then None
    else if KeywordAt(s, k) then Some(k)
    else FindKeyword(s, k + 1)
  }

  /** A keyword is found exactly when one is left. */
  lemma FindKeywordIffKeyword(s: string)
    ensures FindKeyword(s, 0).None? <==> NoKeyword(s)
  {
    if FindKeyword(s, 0).None? {
      forall i: nat | i < |s|
        ensures !TokenAt(s, i)
      {
        assert !KeywordAt(s, i);
      }
    } else {
      var c := FindKeyword(s, 0).value;
      assert TokenAt(s, c) || TokenAt(s, c + 1);
    }
  }

  /**
   * The keyword the pattern captures at a position where one begins: the
   * leading '$'s (three when there are three), the run, and the trailing
   * '$'s (three when there are three).
   */
  function KeywordEnd(s: string, c: nat): (e: nat)
    requires KeywordAt(s, c)
    ensures c + 5 <= e <= |s|
  {
    var start := if TokenAt(s, c) then c + 2 else c + 3;
    var runEnd := RunEnd(s, start);
    if runEnd + 2 < |s| && s[runEnd + 2] == '$' then runEnd + 3 else runEnd + 2
  }

  /** The text with every keyword removed, one captured keyword (all its occurrences) at a time. */
  function StripKeywords(s: string): (r: string)
    ensures NoKeyword(r)
    ensures |r| <= |s|
    decreases |s|
  {
    match FindKeyword(s, 0)
    case None => FindKeywordIffKeyword(s); s
    case Some(c) =>
      var keyword := s[c..KeywordEnd(s, c)];
      assert OccursAt(s, keyword, c);
      RemoveShortens(s, keyword, c);
      StripKeywords(RemoveAll(s, keyword))
  }

  /** Text without keywords is left as it is. */
  lemma StripKeepsClean(s: string)
    requires NoKeyword(s)
    ensures StripKeywords(s) == s
  {
    FindKeywordIffKeyword(s);
  }

  /** A run of keyword characters ends at the same place once a newline is appended. */
  lemma {:induction false} RunEndNewline(s: string, k: nat)
    requires k <= |s|
    ensures RunEnd(s + "\n", k) == RunEnd(s, k)
    decreases |s| - k
  {
    if k < |s| && IsKeywordChar(s[k]) {
      RunEndNewline(s, k + 1);
    }
  }

  /** Appending a newline cannot complete a keyword. */
  lemma NewlineKeepsClean(s: string)
    requires NoKeyword(s)
    ensures NoKeyword(s + "\n")
  {
    var t := s + "\n";
    forall i: nat | i < |t|
      ensures !TokenAt(t, i)
    {
      if i + 2 <= |s| {
        RunEndNewline(s, i + 2);
        assert !TokenAt(s, i);
      }
    }
  }

  /** The launch script's last step: a newline is added to a non-empty script that lacks one. */
  function WithNewline(s: string, addNewline: bool): (r: string)
    ensures addNewline && s != "" ==> EndsWith(r, "\n")
    ensures StartsWith(r, s) && |r| <= |s| + 1
  {
    if addNewline && s != "" && !EndsWith(s, "\n") then s + "\n" else s
  }

  /** The member names of a written job id table: each queue id in the form idTypeToString gives. */
  function JobIdMapToJson(jobs: map<IdType, IdType>): (members: map<string, Json>)
  {
    map q | q in jobs :: IdTypeToString(q) := IdTypeToQJson(jobs[q])
  }

  /**
   * A table read from a jobIdMap object: one entry per id a member name
   * reads as, holding the value of a member with that name.
   */
  ghost predicate ParsedJobIds(m: map<IdType, IdType>, obj: map<string, Json>) {
    m.Keys == (set k | k in obj :: StringToIdType(k)) &&
    forall id :: id in m ==> exists k :: k in obj && StringToIdType(k) == id && m[id] == QJsonToIdType(obj[k])
  }

  /** Every queue id is InvalidId or below 2^63, so that its decimal form reads back. */
  predicate ReadableIds(jobs: map<IdType, IdType>) {
    forall q :: q in jobs ==> q == InvalidId || q < Int64Limit
  }

  /**
   * Reading back a written table gives the same table whenever every queue
   * id survives the string round trip (InvalidId and the ids below 2^63);
   * the MoleQueue ids, written as doubles or null, always come back.
   */
  lemma JobIdMapRoundTrip(jobs: map<IdType, IdType>, m: map<IdType, IdType>)
    requires ReadableIds(jobs)
    requires ParsedJobIds(m, JobIdMapToJson(jobs))
    ensures m == jobs
  {
    WrittenKeysReadBack(jobs);
    WrittenRecords(jobs);
    ParsedRecordedTable(jobs, m, JobIdMapToJson(jobs));
  }

  /** Every member of a written table records its queue id's entry. */
  lemma WrittenRecords(jobs: map<IdType, IdType>)
    requires ReadableIds(jobs)
    ensures forall k | k in JobIdMapToJson(jobs) :: NamesRecord(jobs, JobIdMapToJson(jobs), k)
  {
    forall k | k in JobIdMapToJson(jobs)
      ensures NamesRecord(jobs, JobIdMapToJson(jobs), k)
    {
      WrittenMember(jobs, k);
    }
  }

  /** Member `k` of `obj` reads as a queue id of `jobs` and holds that id's MoleQueue id. */
  predicate NamesRecord(jobs: map<IdType, IdType>, obj: map<string, Json>, k: string)
    requires k in obj
  {
    StringToIdType(k) in jobs && obj[k] == IdTypeToQJson(jobs[StringToIdType(k)])
  }

  /** Reading an object whose every member records `jobs`, and whose names cover it, gives back `jobs`. */
  lemma ParsedRecordedTable(jobs: map<IdType, IdType>, m: map<IdType, IdType>, obj: map<string, Json>)
    requires forall k | k in obj :: NamesRecord(jobs, obj, k)
    requires (set k | k in obj :: StringToIdType(k)) == jobs.Keys
    requires ParsedJobIds(m, obj)
    ensures m == jobs
  {
    forall id | id in m
      ensures m[id] == jobs[id]
    {
      var k :| k in obj && StringToIdType(k) == id && m[id] == QJsonToIdType(obj[k]);
      assert NamesRecord(jobs, obj, k);
      QJsonRoundTrip(jobs[id]);
    }
  }

  /** A member of a written table is named after the queue id it reads as, and holds that id's MoleQueue id. */
  lemma WrittenMember(jobs: map<IdType, IdType>, k: string)
    requires ReadableIds(jobs)
    requires k in JobIdMapToJson(jobs)
    ensures StringToIdType(k) in jobs && JobIdMapToJson(jobs)[k] == IdTypeToQJson(jobs[StringToIdType(k)])
  {
    var q :| q in jobs && k == IdTypeToString(q);
    StringRoundTrip(q);
  }

  /** The ids a written table's member names read as are exactly its queue ids. */
  lemma WrittenKeysReadBack(jobs: map<IdType, IdType>)
    requires ReadableIds(jobs)
    ensures (set k | k in JobIdMapToJson(jobs) :: StringToIdType(k)) == jobs.Keys
  {
    var obj := JobIdMapToJson(jobs);
    forall k | k in obj
      ensures StringToIdType(k) in jobs
    {
      WrittenMember(jobs, k);
    }
    forall q | q in jobs
      ensures IdTypeToString(q) in obj && StringToIdType(IdTypeToString(q)) == q
    {
      StringRoundTrip(q);
    }
    NamesCoverIds(jobs.Keys, obj);
  }

  /** Member names that all read as ids of `ids`, and among which every id's own name appears, read as exactly `ids`. */
  lemma NamesCoverIds(ids: set<IdType>, obj: map<string, Json>)
    requires forall k :: k in obj ==> StringToIdType(k) in ids
    requires forall q :: q in ids ==> IdTypeToString(q) in obj && StringToIdType(IdTypeToString(q)) == q
    ensures (set k | k in obj :: StringToIdType(k)) == ids
  {
    var read := set k | k in obj :: StringToIdType(k);
    forall q | q in ids
      ensures q in read
    {
      var k := IdTypeToString(q);
      assert k in obj && StringToIdType(k) == q;
    }
  }

  /** The jobIdMap members readJsonSettings reads: none when importing or when there is no table. */
  function JobIdObject(root: Json, importOnly: bool): map<string, Json> {
    if !importOnly && Has(root, "jobIdMap") && Get(root, "jobIdMap").JObject? then Get(root, "jobIdMap").members else map[]
  }

  /** A programs object every member of which is a valid program configuration. */
  predicate ProgramsValid(programs: Json) {
    programs.JObject? && forall k :: k in programs.members ==> ProgramConfigValid(programs.members[k])
  }

  /** A program configuration: an object whose settings read successfully. */
  predicate ProgramConfigValid(config: Json) {
    config.JObject? && Programs.SettingsFromJson(config).Some?
  }

  /** The settings a program writes are settings a program accepts. */
  lemma WrittenConfigValid(s: Programs.Settings)
    ensures ProgramConfigValid(Programs.SettingsToJson(s))
  {
    Programs.SettingsRoundTrip(s);
    assert Get(Programs.SettingsToJson(s), "launchSyntax") == JReal(s.launchSyntax as real);
  }

  /** The program is named `k` and holds the configuration the programs object gives for `k`. */
  ghost predicate Configured(p: Programs.Program, k: string, progs: Json)
    reads p
  {
    p.name == k && progs.JObject? && k in progs.members &&
    Programs.SettingsFromJson(progs.members[k]).Some? &&
    p.CurrentSettings() == Programs.SettingsFromJson(progs.members[k]).value
  }

  /** `held` with the programs of `created` named in `names` added wherever `held` lacks the name. */
  function Merged(held: map<string, Programs.Program>, created: map<string, Programs.Program>, names: set<string>): (r: map<string, Programs.Program>)
    requires names <= created.Keys
    ensures r.Keys == held.Keys + names
    ensures forall k :: k in held ==> r[k] == held[k]
    ensures forall k :: k in r && k !in held ==> r[k] == created[k]
  {
    map k | k in held.Keys + names :: if k in held then held[k] else created[k]
  }

  /** Merging nothing leaves the held programs. */
  lemma MergedNone(held: map<string, Programs.Program>, created: map<string, Programs.Program>)
    ensures Merged(held, created, {}) == held
  {
  }

  /** Adding one more created program, unless its name is held already, extends the merge by that name. */
  lemma MergedStep(held: map<string, Programs.Program>, created: map<string, Programs.Program>, names: set<string>, key: string)
    requires names <= created.Keys && key in created && key !in names
    ensures key in Merged(held, created, names) ==> Merged(held, created, names + {key}) == Merged(held, created, names)
    ensures key !in Merged(held, created, names) ==>
      Merged(held, created, names + {key}) == Merged(held, created, names)[key := created[key]]
  {
  }

  /** A queue's state file: "<config directory>/<name>.mqq", or nothing without a configuration directory. */
  function StateFile(configDirectory: string, queueName: string): (r: string)
    ensures r == "" <==> configDirectory == ""
    ensures r != "" ==> StartsWith(r, configDirectory + "/") && EndsWith(r, queueName + ".mqq")
  {
    if configDirectory == "" then "" else configDirectory + "/" + queueName + ".mqq"
  }

  /** Within one configuration directory, different queue names have different state files. */
  lemma StateFileInjective(configDirectory: string, a: string, b: string)
    requires configDirectory != "" && a != b
    ensures StateFile(configDirectory, a) != StateFile(configDirectory, b)
  {
    var fa, fb := StateFile(configDirectory, a), StateFile(configDirectory, b);
    if |a| == |b| {
      var i :| 0 <= i < |a| && a[i] != b[i];
      assert fa[|configDirectory| + 1 + i] == a[i];
      assert fb[|configDirectory| + 1 + i] == b[i];
    } else {
      assert |fa| != |fb|;
    }
  }

  class Queue {
    var name: string
    const kind: QueueKind
    var launchTemplate: string
    var launchScriptName: string
    var programs: map<string, Programs.Program>
    /** Queue job id -> MoleQueue id. */
    var jobs: map<IdType, IdType>
    var failureTracker: map<IdType, int>
    var signals: seq<QueueSignal>

    /** Each program is filed under its own name, and every failure counter is in bounds. */
    ghost predicate Valid()
      reads this, programs.Values
    {
      (forall k :: k in programs ==> programs[k].name == k) && Bounded(failureTracker)
    }

    constructor (name: string, kind: QueueKind, launchTemplate: string, launchScriptName: string)
      ensures Valid()
      ensures this.name == name && this.kind == kind
      ensures this.launchTemplate == launchTemplate && this.launchScriptName == launchScriptName
      ensures programs == map[] && jobs == map[] && failureTracker == map[] && signals == []
    {
      this.name := name;
      this.kind := kind;
      this.launchTemplate := launchTemplate;
      this.launchScriptName := launchScriptName;
      programs := map[];
      jobs := map[];
      failureTracker := map[];
      signals := [];
    }

    /** stateFileName: the state file under the queue's current name. */
    function StateFileName(configDirectory: string): (r: string)
      reads this
    {
      StateFile(configDirectory, name)
    }

    /**
     * addProgram: a name already held is refused unless replace is set, in
     * which case the old program gives way; the program is filed under its
     * name and announced.
     */
    method AddProgram(p: Programs.Program, replace: bool) returns (ok: bool)
      requires Valid()
      modifies this
      ensures Valid()
      ensures ok <==> p.name !in old(programs) || replace
      ensures ok ==> programs == old(programs)[p.name := p] && signals == old(signals) + [ProgramAdded(p.name, p)]
      ensures !ok ==> programs == old(programs) && signals == old(signals)
      ensures name == old(name) && jobs == old(jobs) && failureTracker == old(failureTracker)
      ensures launchTemplate == old(launchTemplate) && launchScriptName == old(launchScriptName)
    {
      if p.name in programs && !replace {
        return false;
      }
      programs := programs[p.name := p];
      signals := signals + [ProgramAdded(p.name, p)];
      ok := true;
    }

    /** removeProgram(name): an unknown name is refused; otherwise exactly that name is dropped. */
    method RemoveProgram(programName: string) returns (ok: bool)
      requires Valid()
      modifies this
      ensures Valid()
      ensures ok <==> programName in old(programs)
      ensures programs == old(programs) - {programName}
      ensures ok ==> signals == old(signals) + [ProgramRemoved(programName, old(programs)[programName])]
      ensures !ok ==> signals == old(signals)
      ensures name == old(name) && jobs == old(jobs) && failureTracker == old(failureTracker)
      ensures launchTemplate == old(launchTemplate) && launchScriptName == old(launchScriptName)
    {
      if programName !in programs {
        return false;
      }
      var program := programs[programName];
      programs := programs - {programName};
      signals := signals + [ProgramRemoved(programName, program)];
      ok := true;
    }

    /** removeProgram(program): by the program's name. */
    method RemoveProgramObject(p: Programs.Program) returns (ok: bool)
      requires Valid()
      modifies this
      ensures Valid()
      ensures ok <==> p.name in old(programs)
      ensures programs == old(programs) - {p.name}
      ensures name == old(name) && jobs == old(jobs) && failureTracker == old(failureTracker)
    {
      ok := RemoveProgram(p.name);
    }

    /**
     * programNameChanged: when the program filed under oldName now calls
     * itself newName, it is filed under newName instead and the rename is
     * announced; any other call changes nothing.
     */
    method ProgramNameChanged(newName: string, oldName: string)
      modifies this
      ensures oldName in old(programs) && old(programs)[oldName].name == newName ==>
        programs == (old(programs) - {oldName})[newName := old(programs)[oldName]] &&
        signals == old(signals) + [ProgramRenamed(newName, old(programs)[oldName], oldName)]
      ensures !(oldName in old(programs) && old(programs)[oldName].name == newName) ==>
        programs == old(programs) && signals == old(signals)
      ensures name == old(name) && jobs == old(jobs) && failureTracker == old(failureTracker)
      ensures launchTemplate == old(launchTemplate) && launchScriptName == old(launchScriptName)
    {
      if oldName in programs {
        var prog := programs[oldName];
        if prog.name == newName {
          programs := (programs - {oldName})[newName := prog];
          signals := signals + [ProgramRenamed(newName, prog, oldName)];
        }
      }
    }

    /**
     * Renaming a program of this queue (Program::setName followed by the
     * nameChanged connection to programNameChanged) files it under its new
     * name and keeps every program under its own name.
     */
    method RenameProgram(p: Programs.Program, newName: string)
      requires Valid() && p in programs.Values
      modifies this, p
      ensures Valid()
      ensures p.name == newName
      ensures programs == if newName == old(p.name) then old(programs)
                          else (old(programs) - {old(p.name)})[newName := p]
    {
      ghost var oldPrograms := programs;
      var oldName := p.name;
      assert programs[oldName] == p by {
        var k :| k in programs && programs[k] == p;
      }
      p.SetName(newName);
      if newName != oldName {
        ProgramNameChanged(newName, oldName);
        forall k | k in programs
          ensures programs[k].name == k
        {
          if k != newName {
            assert k in oldPrograms && k != oldName && programs[k] == oldPrograms[k];
            assert oldPrograms[k] != p;
          }
        }
      }
    }

    /** addJobFailure: counts the failure; false once the job has failed more than MaxFailures times. */
    method AddJobFailure(moleQueueId: IdType) returns (retry: bool)
      requires Valid()
      modifies this
      ensures Valid()
      ensures (failureTracker, retry) == FailureStep(old(failureTracker), moleQueueId)
      ensures programs == old(programs) && jobs == old(jobs) && name == old(name) && signals == old(signals)
    {
      FailureStepBounded(failureTracker, moleQueueId);
      if moleQueueId !in failureTracker {
        failureTracker := failureTracker[moleQueueId := 1];
        return true;
      }
      var failures := failureTracker[moleQueueId] + 1;
      failureTracker := failureTracker[moleQueueId := failures];
      if failures > MaxFailures {
        failureTracker := failureTracker - {moleQueueId};
        assert failureTracker == old(failureTracker) - {moleQueueId};
        return false;
      }
      retry := true;
    }

    /** jobAboutToBeRemoved: the job's failure counter and its queue id entry are dropped. */
    method JobAboutToBeRemoved(moleQueueId: IdType, queueId: IdType)
      requires Valid()
      modifies this
      ensures Valid()
      ensures failureTracker == old(failureTracker) - {moleQueueId}
      ensures jobs == old(jobs) - {queueId}
      ensures programs == old(programs) && name == old(name) && signals == old(signals)
    {
      failureTracker := failureTracker - {moleQueueId};
      jobs := jobs - {queueId};
    }

    /** clearJobFailures: the job's failure counter is dropped; nothing else changes. */
    method ClearJobFailures(moleQueueId: IdType)
      requires Valid()
      modifies this
      ensures Valid()
      ensures failureTracker == old(failureTracker) - {moleQueueId}
      ensures programs == old(programs) && jobs == old(jobs) && name == old(name) && signals == old(signals)
    {
      failureTracker := failureTracker - {moleQueueId};
    }

    /** A submitted job's queue id is recorded against its MoleQueue id (m_jobs.insert); nothing else changes. */
    method RecordQueueId(queueId: IdType, moleQueueId: IdType)
      requires Valid()
      modifies this
      ensures Valid()
      ensures jobs == old(jobs)[queueId := moleQueueId]
      ensures programs == old(programs) && name == old(name) && signals == old(signals)
      ensures failureTracker == old(failureTracker)
    {
      jobs := jobs[queueId := moleQueueId];
    }

    /** The queue id of a job that stopped running is forgotten; nothing else changes. */
    method ForgetQueueId(queueId: IdType)
      requires Valid()
      modifies this
      ensures Valid()
      ensures jobs == old(jobs) - {queueId}
      ensures programs == old(programs) && name == old(name) && signals == old(signals)
      ensures failureTracker == old(failureTracker)
    {
      jobs := jobs - {queueId};
    }

    /**
     * replaceKeywords: for a valid job, $$outputFileName$$ becomes its
     * program's output file name (when the queue has the program) and the
     * job's own keywords are filled in; then every keyword left is removed
     * (each is returned, as the warning logged for it), and with addNewline
     * a non-empty script ends in a newline. The job's substitution is a
     * parameter.
     */
    method ReplaceKeywords(launchScript: string, jobValid: bool, jobProgram: string,
                           jobKeywords: string -> string, addNewline: bool)
      returns (script: string, removed: seq<string>)
      ensures var filled := if !jobValid then launchScript
                            else jobKeywords(if jobProgram in programs
                                             then Replace(launchScript, "$$outputFileName$$", programs[jobProgram].outputFilename)
                                             else launchScript);
              script == WithNewline(StripKeywords(filled), addNewline)
      ensures NoKeyword(script)
      ensures addNewline && script != "" ==> EndsWith(script, "\n")
    {
      script := launchScript;
      if jobValid {
        if jobProgram in programs {
          script := Replace(script, "$$outputFileName$$", programs[jobProgram].outputFilename);
        }
        script := jobKeywords(script);
      }
      ghost var filled := script;
      removed := [];
      while FindKeyword(script, 0).Some?
        invariant StripKeywords(script) == StripKeywords(filled)
        decreases |script|
      {
        var c := FindKeyword(script, 0).value;
        var keyword := script[c..KeywordEnd(script, c)];
        assert OccursAt(script, keyword, c);
        RemoveShortens(script, keyword, c);
        removed := removed + [keyword];
        script := RemoveAll(script, keyword);
      }
      FindKeywordIffKeyword(script);
      StripKeepsClean(script);
      if addNewline && script != "" && !EndsWith(script, "\n") {
        NewlineKeepsClean(script);
        script := script + "\n";
      }
    }

    /**
     * The checks readJsonSettings makes before it changes anything: three
     * strings, a programs member (if any) that is an object, the queue's own
     * type, an object for jobIdMap unless importing, and a valid
     * configuration for every program when programs are included.
     */
    predicate SettingsValid(root: Json, importOnly: bool, includePrograms: bool) {
      Get(root, "type").JString? && Get(root, "launchTemplate").JString? &&
      Get(root, "launchScriptName").JString? &&
      !(Has(root, "programs") && !Get(root, "programs").JObject?) &&
      Get(root, "type").s == TypeName(kind) &&
      (importOnly || !Has(root, "jobIdMap") || Get(root, "jobIdMap").JObject?) &&
      (!includePrograms || !Has(root, "programs") || ProgramsValid(Get(root, "programs")))
    }

    /** writeJsonSettings: type, template and script name; the job table unless exporting; the programs if asked. */
    function WriteJsonSettings(exportOnly: bool, includePrograms: bool): (root: Json)
      reads this, programs.Values
      ensures root.JObject?
      ensures Has(root, "jobIdMap") <==> !exportOnly
      ensures Has(root, "programs") <==> includePrograms
    {
      var base := map["type" := JString(TypeName(kind)),
                       "launchTemplate" := JString(launchTemplate),
                       "launchScriptName" := JString(launchScriptName)];
      var withJobs := if exportOnly then base else base["jobIdMap" := JObject(JobIdMapToJson(jobs))];
      var withPrograms := if includePrograms
        then withJobs["programs" := JObject(map k | k in programs :: Programs.SettingsToJson(programs[k].CurrentSettings()))]
        else withJobs;
      JObject(withPrograms)
    }

    /** The members writeJsonSettings fills in. */
    lemma WrittenMembers(exportOnly: bool, includePrograms: bool)
      ensures var root := WriteJsonSettings(exportOnly, includePrograms);
        Get(root, "type") == JString(TypeName(kind)) && Get(root, "launchTemplate") == JString(launchTemplate) &&
        Get(root, "launchScriptName") == JString(launchScriptName) &&
        (!exportOnly ==> Get(root, "jobIdMap") == JObject(JobIdMapToJson(jobs))) &&
        (includePrograms ==>
          Get(root, "programs") == JObject(map k | k in programs :: Programs.SettingsToJson(programs[k].CurrentSettings())))
    {
      var base := map["type" := JString(TypeName(kind)),
                       "launchTemplate" := JString(launchTemplate),
                       "launchScriptName" := JString(launchScriptName)];
      var withJobs := if exportOnly then base else base["jobIdMap" := JObject(JobIdMapToJson(jobs))];
      assert withJobs["type"] == JString(TypeName(kind)) && withJobs["launchTemplate"] == JString(launchTemplate);
      assert withJobs["launchScriptName"] == JString(launchScriptName);
      assert "jobIdMap"[0] != "programs"[0];
    }

    /** What a queue writes, a queue of the same type accepts. */
    lemma WrittenSettingsValid(exportOnly: bool, includePrograms: bool, importOnly: bool)
      ensures SettingsValid(WriteJsonSettings(exportOnly, includePrograms), importOnly, includePrograms)
    {
      var root := WriteJsonSettings(exportOnly, includePrograms);
      WrittenMembers(exportOnly, includePrograms);
      if includePrograms {
        var progs := Get(root, "programs");
        forall k | k in progs.members
          ensures ProgramConfigValid(progs.members[k])
        {
          WrittenConfigValid(programs[k].CurrentSettings());
        }
      }
    }

    /**
     * readJsonSettings: nothing changes unless SettingsValid holds. Then the
     * template and script name are taken, the job table is replaced unless
     * importing, and each configured program whose name the queue does not
     * hold yet is created and added.
     */
    method ReadJsonSettings(root: Json, importOnly: bool, includePrograms: bool) returns (ok: bool)
      requires Valid()
      modifies this
      ensures Valid()
      ensures ok <==> SettingsValid(root, importOnly, includePrograms)
      ensures !ok ==> launchTemplate == old(launchTemplate) && launchScriptName == old(launchScriptName) &&
                      jobs == old(jobs) && programs == old(programs) && signals == old(signals)
      ensures ok ==> launchTemplate == Get(root, "launchTemplate").s && launchScriptName == Get(root, "launchScriptName").s
      ensures importOnly ==> jobs == old(jobs)
      ensures ok && !importOnly ==> ParsedJobIds(jobs, JobIdObject(root, importOnly))
      ensures !includePrograms || !ok ==> programs == old(programs)
      ensures ok && includePrograms ==>
        programs.Keys == old(programs).Keys + Keys(Get(root, "programs")) &&
        (forall k :: k in old(programs) ==> programs[k] == old(programs)[k]) &&
        (forall k :: k in programs && k !in old(programs) ==>
           Configured(programs[k], k, Get(root, "programs")))
      ensures name == old(name) && failureTracker == old(failureTracker)
    {
      if !SettingsValid(root, importOnly, includePrograms) {
        return false;
      }
      var jobIdMap := ParseJobIdMap(JobIdObject(root, importOnly));
      launchTemplate := Get(root, "launchTemplate").s;
      launchScriptName := Get(root, "launchScriptName").s;
      if !importOnly {
        jobs := jobIdMap;
      }
      if includePrograms && Has(root, "programs") {
        var created := CreatePrograms(Get(root, "programs"));
        AddCreatedPrograms(created);
      }
      ok := true;
    }

    /** The job id table read from a jobIdMap object's members. */
    static method ParseJobIdMap(obj: map<string, Json>) returns (m: map<IdType, IdType>)
      ensures ParsedJobIds(m, obj)
    {
      m := map[];
      var remaining := obj.Keys;
      while remaining != {}
        invariant remaining <= obj.Keys
        invariant m.Keys == (set k | k in obj && k !in remaining :: StringToIdType(k))
        invariant forall id :: id in m ==> exists k :: k in obj && StringToIdType(k) == id && m[id] == QJsonToIdType(obj[k])
      {
        var key :| key in remaining;
        m := m[StringToIdType(key) := QJsonToIdType(obj[key])];
        remaining := remaining - {key};
      }
    }

    /** One new program per configured name, named after it and configured from it. */
    static method CreatePrograms(progs: Json) returns (created: map<string, Programs.Program>)
      requires ProgramsValid(progs)
      ensures created.Keys == progs.members.Keys
      ensures forall k :: k in created ==> Configured(created[k], k, progs)
    {
      created := map[];
      var remaining := progs.members.Keys;
      while remaining != {}
        invariant remaining <= progs.members.Keys
        invariant created.Keys == progs.members.Keys - remaining
        invariant forall k :: k in created ==> Configured(created[k], k, progs)
      {
        var key :| key in remaining;
        assert ProgramConfigValid(progs.members[key]);
        var p := NewProgram(key, progs.members[key]);
        created := created[key := p];
        remaining := remaining - {key};
      }
    }

    /** A new program with the given name, configured from valid settings. */
    static method NewProgram(name: string, settings: Json) returns (p: Programs.Program)
      requires ProgramConfigValid(settings)
      ensures fresh(p) && p.name == name && p.CurrentSettings() == Programs.SettingsFromJson(settings).value
    {
      p := new Programs.Program();
      p.SetName(name);
      var accepted := p.ReadJsonSettings(settings);
    }

    /** One step of AddCreatedPrograms: the program created under `key` joins the merge. */
    method AddCreatedProgram(ghost held: map<string, Programs.Program>, created: map<string, Programs.Program>,
                             ghost done: set<string>, key: string)
      requires Valid()
      requires forall k :: k in created ==> created[k].name == k
      requires done <= created.Keys && key in created && key !in done
      requires programs == Merged(held, created, done)
      modifies this
      ensures Valid()
      ensures programs == Merged(held, created, done + {key})
      ensures name == old(name) && jobs == old(jobs) && failureTracker == old(failureTracker)
      ensures launchTemplate == old(launchTemplate) && launchScriptName == old(launchScriptName)
    {
      assert created[key].name == key;
      var added := AddProgram(created[key], false);
      MergedStep(held, created, done, key);
    }

    /** Each created program is added unless the queue already holds its name. */
    method AddCreatedPrograms(created: map<string, Programs.Program>)
      requires Valid()
      requires forall k :: k in created ==> created[k].name == k
      modifies this
      ensures Valid()
      ensures programs.Keys == old(programs).Keys + created.Keys
      ensures forall k :: k in old(programs) ==> programs[k] == old(programs)[k]
      ensures forall k :: k in programs && k !in old(programs) ==> programs[k] == created[k]
      ensures name == old(name) && jobs == old(jobs) && failureTracker == old(failureTracker)
      ensures launchTemplate == old(launchTemplate) && launchScriptName == old(launchScriptName)
    {
      var remaining := created.Keys;
      ghost var done: set<string> := {};
      MergedNone(programs, created);
      while remaining != {}
        invariant done + remaining == created.Keys && done !! remaining
        invariant programs == Merged(old(programs), created, done)
        invariant Valid()
        invariant name == old(name) && jobs == old(jobs) && failureTracker == old(failureTracker)
        invariant launchTemplate == old(launchTemplate) && launchScriptName == old(launchScriptName)

      {
        var key :| key in remaining;
        AddCreatedProgram(old(programs), created, done, key);
        done := done + {key};
        remaining := remaining - {key};
      }
    }
  }
}
