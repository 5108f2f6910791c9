/**
 * The local queue (app/queues/local.cpp): jobs wait in a FIFO of MoleQueue
 * ids and are started, oldest first, while the machine has cores to spare.
 *
 * The job manager's answers are parameters: `jobCores` maps the MoleQueue
 * id of every job it knows (a valid Job) to the job's number of cores.
 * Whether startJob manages to launch a job is the oracle `starts`; a job
 * that starts joins `runningJobs`. QThread::idealThreadCount is the
 * parameter `idealThreadCount`. The job states the queue sets go to
 * `stateChanges`. The generic queue part (name, programs, the queue id
 * table) is the Queues.Queue `base`.
 */
module LocalQueues {
  import opened IdTypes
  import opened JsonValue
  import opened ListOps
  import opened JobStates
  import Queues
  import Programs

  /** The launch template and script name a local queue starts with: a batch file on Windows, a shell script elsewhere. */
  function LocalDefaults(windows: bool): (string, string) {
    if windows then ("@echo off\n\n$$programExecution$$\n", "MoleQueueLauncher.bat")
    else ("#!/bin/bash\n\n$$programExecution$$\n", "MoleQueueLauncher.sh")
  }

  /** maxNumberOfCores: the configured core count when positive, else the ideal thread count. */
  function MaxNumberOfCores(cores: int, idealThreadCount: int): (n: int)
    ensures cores > 0 ==> n == cores
    ensures cores <= 0 ==> n == idealThreadCount
  {
    if cores > 0 then cores else idealThreadCount
  }

  /** The core count readJsonSettings takes from a number: add 0.5, then truncate toward zero. */
  function ReadCores(x: real): int {
    Truncate(x + 0.5)
  }

  /**
   * A written core count reads back as itself when it is not negative; a
   * negative one may read back differently (-1 reads as 0), but every
   * value reads back to the same maximum number of cores.
   */
  lemma CoresRoundTrip(cores: int, idealThreadCount: int)
    ensures ReadCores(cores as real) == cores <==> cores >= 0
    ensures MaxNumberOfCores(ReadCores(cores as real), idealThreadCount) == MaxNumberOfCores(cores, idealThreadCount)
  {
    var r := ReadCores(cores as real);
    if cores < 0 {
      assert r as real - 1.0 < cores as real + 0.5 <= r as real || r as real <= cores as real + 0.5;
      assert r > cores;
      assert r <= 0;
    }
  }

  /** The cores the valid jobs among `ids` use; an id the job manager does not know adds nothing. */
  function SumValidCores(ids: seq<IdType>, jobCores: map<IdType, int>): int {
    if ids == [] then 0
    else SumValidCores(ids[..|ids| - 1], jobCores) + CoresOf(ids[|ids| - 1], jobCores)
  }

  function CoresOf(id: IdType, jobCores: map<IdType, int>): int {
    if id in jobCores then jobCores[id] else 0
  }

  /** Summing from the front gives the same total. */
  lemma {:induction false} SumValidCoresPrepend(id: IdType, ids: seq<IdType>, jobCores: map<IdType, int>)
    ensures SumValidCores([id] + ids, jobCores) == CoresOf(id, jobCores) + SumValidCores(ids, jobCores)
    decreases |ids|
  {
    if ids != [] {
      assert ([id] + ids)[..|ids|] == [id] + ids[..|ids| - 1];
      SumValidCoresPrepend(id, ids[..|ids| - 1], jobCores);
    }
  }

  /** What one run of checkJobQueue's scheduling loop does. */
  datatype Outcome = Outcome(consumed: nat, started: seq<IdType>, available: int)

  /**
   * The scheduling loop: while jobs wait and cores are available, an
   * unknown job at the head is dropped, a job that fits is dequeued and
   * started (its cores are taken only if it starts), and a job that does
   * not fit stops the loop.
   */
  function Schedule(pending: seq<IdType>, available: int, jobCores: map<IdType, int>, starts: IdType -> bool): (o: Outcome)
    ensures o.consumed <= |pending|
    decreases |pending|
  {
    if pending == [] || available <= 0 then Outcome(0, [], available)
    else
      var id := pending[0];
      if id !in jobCores then
        var o := Schedule(pending[1..], available, jobCores, starts);
        Outcome(o.consumed + 1, o.started, o.available)
      else if jobCores[id] <= available then
        var o := Schedule(pending[1..], if starts(id) then available - jobCores[id] else available, jobCores, starts);
        Outcome(o.consumed + 1, if starts(id) then [id] + o.started else o.started, o.available)
      else Outcome(0, [], available)
  }

  /** One turn of the scheduling loop: a job that is unknown or fits is dequeued, and its cores are taken if it starts. */
  lemma ScheduleStep(pending: seq<IdType>, available: int, jobCores: map<IdType, int>, starts: IdType -> bool)
    requires pending != [] && available > 0
    requires pending[0] !in jobCores || jobCores[pending[0]] <= available
    ensures var id := pending[0];
      var taken := id in jobCores && starts(id);
      var o := Schedule(pending[1..], if taken then available - jobCores[id] else available, jobCores, starts);
      Schedule(pending, available, jobCores, starts) ==
        Outcome(o.consumed + 1, (if taken then [id] else []) + o.started, o.available)
  {
  }

  /** One turn of checkJobQueue's loop keeps it on course for the outcome Schedule gives the whole queue. */
  lemma RunStep(goal: Outcome, consumed: nat, started: seq<IdType>, queue: seq<IdType>, available: int,
                jobCores: map<IdType, int>, starts: IdType -> bool)
    requires queue != [] && available > 0
    requires queue[0] !in jobCores || jobCores[queue[0]] <= available
    requires var o := Schedule(queue, available, jobCores, starts);
      goal == Outcome(consumed + o.consumed, started + o.started, o.available)
    ensures var id := queue[0];
      var taken := id in jobCores && starts(id);
      var o := Schedule(queue[1..], if taken then available - jobCores[id] else available, jobCores, starts);
      goal == Outcome(consumed + 1 + o.consumed, (if taken then started + [id] else started) + o.started, o.available)
  {
    ScheduleStep(queue, available, jobCores, starts);
    var id := queue[0];
    var taken := id in jobCores && starts(id);
    var o := Schedule(queue[1..], if taken then available - jobCores[id] else available, jobCores, starts);
    assert started + ((if taken then [id] else []) + o.started) == (if taken then started + [id] else started) + o.started;
  }

  /** The jobs of `s` that the job manager knows and that start, in order. */
  function Startable(s: seq<IdType>, jobCores: map<IdType, int>, starts: IdType -> bool): seq<IdType> {
    if s == [] then []
    else (if s[0] in jobCores && starts(s[0]) then [s[0]] else []) + Startable(s[1..], jobCores, starts)
  }

  /**
   * FIFO without skipping: the jobs started are exactly the known jobs
   * among those dequeued that start, in queue order; a job that fails to
   * start is not queued again.
   */
  lemma {:induction false} ScheduleInOrder(pending: seq<IdType>, available: int, jobCores: map<IdType, int>, starts: IdType -> bool)
    ensures Schedule(pending, available, jobCores, starts).started ==
            Startable(pending[..Schedule(pending, available, jobCores, starts).consumed], jobCores, starts)
    decreases |pending|
  {
    var o := Schedule(pending, available, jobCores, starts);
    if pending != [] && available > 0 && (pending[0] !in jobCores || jobCores[pending[0]] <= available) {
      var id := pending[0];
      var next := if id in jobCores && starts(id) then available - jobCores[id] else available;
      ScheduleInOrder(pending[1..], next, jobCores, starts);
      var o' := Schedule(pending[1..], next, jobCores, starts);
      assert pending[..o.consumed][1..] == pending[1..][..o'.consumed];
    }
  }

  /** The cores left are the cores available minus those of the jobs started. */
  lemma {:induction false} ScheduleBudget(pending: seq<IdType>, available: int, jobCores: map<IdType, int>, starts: IdType -> bool)
    ensures Schedule(pending, available, jobCores, starts).available ==
            available - SumValidCores(Schedule(pending, available, jobCores, starts).started, jobCores)
    decreases |pending|
  {
    if pending != [] && available > 0 && (pending[0] !in jobCores || jobCores[pending[0]] <= available) {
      var id := pending[0];
      var next := if id in jobCores && starts(id) then available - jobCores[id] else available;
      ScheduleBudget(pending[1..], next, jobCores, starts);
      var o' := Schedule(pending[1..], next, jobCores, starts);
      SumValidCoresPrepend(id, o'.started, jobCores);
    }
  }

  /** Every job started fitted in the cores left when its turn came. */
  lemma {:induction false} ScheduleFits(pending: seq<IdType>, available: int, jobCores: map<IdType, int>, starts: IdType -> bool,
                                        i: int)
    requires 0 <= i < |Schedule(pending, available, jobCores, starts).started|
    ensures var s := Schedule(pending, available, jobCores, starts).started;
      s[i] in jobCores && jobCores[s[i]] <= available - SumValidCores(s[..i], jobCores)
    decreases |pending|
  {
    var id := pending[0];
    var next := if id in jobCores && starts(id) then available - jobCores[id] else available;
    var o' := Schedule(pending[1..], next, jobCores, starts);
    var s := Schedule(pending, available, jobCores, starts).started;
    if id in jobCores && starts(id) {
      if i > 0 {
        ScheduleFits(pending[1..], next, jobCores, starts, i - 1);
        assert s[..i] == [id] + o'.started[..i - 1];
        SumValidCoresPrepend(id, o'.started[..i - 1], jobCores);
      }
    } else {
      ScheduleFits(pending[1..], next, jobCores, starts, i);
    }
  }

  /**
   * The loop stops only when the queue is empty, no core is left, or the
   * job at the head is a known job needing more cores than are left.
   */
  lemma {:induction false} ScheduleStops(pending: seq<IdType>, available: int, jobCores: map<IdType, int>, starts: IdType -> bool)
    ensures var o := Schedule(pending, available, jobCores, starts);
      o.consumed < |pending| ==>
        o.available <= 0 || (pending[o.consumed] in jobCores && jobCores[pending[o.consumed]] > o.available)
    decreases |pending|
  {
    if pending == [] || available <= 0 {
    } else if pending[0] in jobCores && jobCores[pending[0]] > available {
      assert Schedule(pending, available, jobCores, starts).consumed == 0;
    } else {
      var id := pending[0];
      var next := if id in jobCores && starts(id) then available - jobCores[id] else available;
      ScheduleStep(pending, available, jobCores, starts);
      ScheduleStops(pending[1..], next, jobCores, starts);
      var o' := Schedule(pending[1..], next, jobCores, starts);
      if o'.consumed < |pending[1..]| {
        assert pending[1 + o'.consumed] == pending[1..][o'.consumed];
      }
    }
  }

  /** The entries of a jobsToResume array. */
  function IdsToJson(ids: seq<IdType>): seq<Json> {
    seq(|ids|, i requires 0 <= i < |ids| => IdTypeToQJson(ids[i]))
  }

  function JsonToIds(items: seq<Json>): seq<IdType> {
    seq(|items|, i requires 0 <= i < |items| => QJsonToIdType(items[i]))
  }

  lemma IdsRoundTrip(ids: seq<IdType>)
    ensures JsonToIds(IdsToJson(ids)) == ids
  {
    forall i | 0 <= i < |ids|
      ensures JsonToIds(IdsToJson(ids))[i] == ids[i]
    {
      QJsonRoundTrip(ids[i]);
    }
  }

  /** A job with the invalid id is written as null, which the isDouble check then refuses. */
  lemma InvalidResumeIdRefused(generic: Json, cores: int, resume: seq<IdType>)
    requires InvalidId in resume
    ensures !LocalSettingsValid(LocalJson(generic, cores, resume, false), false)
  {
    var json := LocalJson(generic, cores, resume, false);
    var i :| 0 <= i < |resume| && resume[i] == InvalidId;
    assert Get(json, "jobsToResume").items[i] == JNull;
  }

  /** The checks readJsonSettings makes before the generic queue's: a numeric core count and, unless importing, numeric ids to resume. */
  predicate LocalSettingsValid(json: Json, importOnly: bool) {
    IsNumeric(Get(json, "cores")) &&
    (importOnly || !Has(json, "jobsToResume") ||
     (Get(json, "jobsToResume").JArray? &&
      forall i :: 0 <= i < |Get(json, "jobsToResume").items| ==> IsNumeric(Get(json, "jobsToResume").items[i])))
  }

  /** The pending queue readJsonSettings sets: the ids to resume, or none when importing or when there are none. */
  function ResumeIds(json: Json, importOnly: bool): seq<IdType> {
    if !importOnly && Has(json, "jobsToResume") && Get(json, "jobsToResume").JArray?
    then JsonToIds(Get(json, "jobsToResume").items) else []
  }

  /** QList::removeAt. */
  function RemovedAt(s: seq<IdType>, i: nat): (r: seq<IdType>)
    requires i < |s|
    ensures |r| == |s| - 1
    ensures forall j :: 0 <= j < |r| ==> r[j] == if j < i then s[j] else s[j + 1]
  {
    s[..i] + s[i + 1..]
  }

  /** Removing the first occurrence of a pending job takes exactly one copy of it out of the queue. */
  lemma RemovedFirstOccurrence(s: seq<IdType>, id: IdType)
    requires id in s
    ensures multiset(RemovedAt(s, IndexOf(s, id))) == multiset(s) - multiset{id}
  {
    var i := IndexOf(s, id);
    assert s == s[..i] + [id] + s[i + 1..];
  }

  /** writeJsonSettings: the generic settings plus the core count and, unless exporting, the jobs to resume. */
  function LocalJson(generic: Json, cores: int, resume: seq<IdType>, exportOnly: bool): Json {
    var withCores := Set(generic, "cores", JReal(cores as real));
    if exportOnly then withCores else Set(withCores, "jobsToResume", JArray(IdsToJson(resume)))
  }

  /** The local members leave every generic member as it was. */
  lemma LocalJsonKeepsGeneric(generic: Json, cores: int, resume: seq<IdType>, exportOnly: bool, key: string)
    requires key != "cores" && key != "jobsToResume"
    ensures Get(LocalJson(generic, cores, resume, exportOnly), key) == Get(generic, key)
    ensures Has(LocalJson(generic, cores, resume, exportOnly), key) <==> Has(generic, key)
  {
  }

  /** The local members read back as written, up to the core count's rounding. */
  lemma LocalJsonReadBack(generic: Json, cores: int, resume: seq<IdType>, idealThreadCount: int)
    requires InvalidId !in resume
    ensures LocalSettingsValid(LocalJson(generic, cores, resume, false), false)
    ensures ResumeIds(LocalJson(generic, cores, resume, false), false) == resume
    ensures MaxNumberOfCores(ReadCores(ToReal(Get(LocalJson(generic, cores, resume, false), "cores"))), idealThreadCount) ==
            MaxNumberOfCores(cores, idealThreadCount)
  {
    var json := LocalJson(generic, cores, resume, false);
    assert Get(json, "jobsToResume") == JArray(IdsToJson(resume));
    assert Get(json, "cores") == JReal(cores as real);
    IdsRoundTrip(resume);
    CoresRoundTrip(cores, idealThreadCount);
    forall i | 0 <= i < |resume|
      ensures IsNumeric(IdsToJson(resume)[i])
    {
      assert resume[i] != InvalidId;
    }
  }

  class LocalQueue {
    const base: Queues.Queue
    var pendingJobQueue: seq<IdType>
    var runningJobs: set<IdType>
    var cores: int
    var stateChanges: seq<(IdType, JobState)>

    ghost predicate Valid()
      reads this, base, base.programs.Values
    {
      base.Valid()
    }

    /** A new local queue: named "Local", no jobs, and the core count unset (-1). */
    constructor (windows: bool)
      ensures Valid() && fresh(base)
      ensures base.name == "Local" && base.kind == Queues.Local
      ensures (base.launchTemplate, base.launchScriptName) == LocalDefaults(windows)
      ensures base.programs == map[] && base.jobs == map[]
      ensures pendingJobQueue == [] && runningJobs == {} && cores == -1 && stateChanges == []
    {
      var (template, scriptName) := LocalDefaults(windows);
      base := new Queues.Queue("Local", Queues.Local, template, scriptName);
      pendingJobQueue, runningJobs := [], {};
      cores := -1;
      stateChanges := [];
    }

    /** addJobToQueue: the job joins the back of the pending queue as QueuedLocal. */
    method AddJobToQueue(moleQueueId: IdType) returns (ok: bool)
      modifies this
      ensures ok
      ensures pendingJobQueue == old(pendingJobQueue) + [moleQueueId]
      ensures stateChanges == old(stateChanges) + [(moleQueueId, QueuedLocal)]
      ensures runningJobs == old(runningJobs) && cores == old(cores)
    {
      pendingJobQueue := pendingJobQueue + [moleQueueId];
      stateChanges := stateChanges + [(moleQueueId, QueuedLocal)];
      ok := true;
    }

    /**
     * killJob: an invalid job is ignored. A pending job leaves the queue
     * (its first occurrence); otherwise a running job stops running and its
     * queue id entry is dropped. Every valid job ends Canceled.
     */
    method KillJob(jobValid: bool, moleQueueId: IdType, queueId: IdType)
      requires Valid()
      modifies this, base
      ensures Valid()
      ensures !jobValid ==>
        pendingJobQueue == old(pendingJobQueue) && runningJobs == old(runningJobs) &&
        base.jobs == old(base.jobs) && stateChanges == old(stateChanges)
      ensures jobValid ==> stateChanges == old(stateChanges) + [(moleQueueId, Canceled)]
      ensures jobValid && moleQueueId in old(pendingJobQueue) ==>
        pendingJobQueue == RemovedAt(old(pendingJobQueue), IndexOf(old(pendingJobQueue), moleQueueId)) &&
        runningJobs == old(runningJobs) && base.jobs == old(base.jobs)
      ensures jobValid && moleQueueId !in old(pendingJobQueue) ==>
        pendingJobQueue == old(pendingJobQueue) &&
        runningJobs == old(runningJobs) - {moleQueueId} &&
        base.jobs == (if moleQueueId in old(runningJobs) then old(base.jobs) - {queueId} else old(base.jobs))
      ensures cores == old(cores)
      ensures base.programs == old(base.programs) && base.name == old(base.name) && base.failureTracker == old(base.failureTracker)
    {
      if !jobValid {
        return;
      }
      var wasRunning := CancelJob(moleQueueId);
      if wasRunning {
        base.ForgetQueueId(queueId);
      }
    }

    /**
     * killJob's own bookkeeping: a pending job leaves the queue (its first
     * occurrence), otherwise a running job stops running; either way the job
     * ends Canceled. Reports whether the job was running.
     */
    method CancelJob(moleQueueId: IdType) returns (wasRunning: bool)
      modifies this
      ensures wasRunning <==> moleQueueId !in old(pendingJobQueue) && moleQueueId in old(runningJobs)
      ensures moleQueueId in old(pendingJobQueue) ==>
        pendingJobQueue == RemovedAt(old(pendingJobQueue), IndexOf(old(pendingJobQueue), moleQueueId)) &&
        runningJobs == old(runningJobs)
      ensures moleQueueId !in old(pendingJobQueue) ==>
        pendingJobQueue == old(pendingJobQueue) && runningJobs == old(runningJobs) - {moleQueueId}
      ensures stateChanges == old(stateChanges) + [(moleQueueId, Canceled)] && cores == old(cores)
    {
      var pendingIndex := IndexOf(pendingJobQueue, moleQueueId);
      wasRunning := false;
      if pendingIndex >= 0 {
        pendingJobQueue := RemovedAt(pendingJobQueue, pendingIndex);
      } else if moleQueueId in runningJobs {
        runningJobs := runningJobs - {moleQueueId};
        wasRunning := true;
      }
      stateChanges := stateChanges + [(moleQueueId, Canceled)];
    }

    /** The cores checkJobQueue finds free: the maximum less the cores of the valid running jobs. */
    function CoresAvailable(jobCores: map<IdType, int>, idealThreadCount: int): int
      reads this
    {
      MaxNumberOfCores(cores, idealThreadCount) - SumValidCores(RunningIds(), jobCores)
    }

    /** The running jobs in the order QMap::keys lists them. */
    function RunningIds(): (r: seq<IdType>)
      reads this
      ensures forall x :: x in r <==> x in runningJobs
    {
      var keys := SortedKeys(runningJobs);
      assert forall i :: 0 <= i < |keys| ==> keys[i] in runningJobs;
      keys
    }

    /**
     * checkJobQueue: with no job waiting nothing changes; otherwise the
     * cores in use by the valid running jobs are counted and the
     * scheduling loop runs on what is left: the jobs it consumes leave the
     * queue and those that start are running.
     */
    method CheckJobQueue(jobCores: map<IdType, int>, idealThreadCount: int, starts: IdType -> bool)
      modifies this
      ensures old(pendingJobQueue) == [] ==> pendingJobQueue == [] && runningJobs == old(runningJobs)
      ensures var o := Schedule(old(pendingJobQueue), old(CoresAvailable(jobCores, idealThreadCount)), jobCores, starts);
        pendingJobQueue == old(pendingJobQueue)[o.consumed..] &&
        runningJobs == old(runningJobs) + Elements(o.started)
      ensures cores == old(cores) && stateChanges == old(stateChanges)
    {
      if pendingJobQueue == [] {
        return;
      }
      var coresInUse := CoresInUse(RunningIds(), jobCores);
      var coresAvailable := MaxNumberOfCores(cores, idealThreadCount) - coresInUse;
      assert coresAvailable == CoresAvailable(jobCores, idealThreadCount);
      pendingJobQueue, runningJobs := RunQueue(pendingJobQueue, runningJobs, coresAvailable, jobCores, starts);
    }

    /** checkJobQueue's count of the cores the valid running jobs hold. */
    static method CoresInUse(ids: seq<IdType>, jobCores: map<IdType, int>) returns (coresInUse: int)
      ensures coresInUse == SumValidCores(ids, jobCores)
    {
      coresInUse := 0;
      var i := 0;
      while i < |ids|
        invariant 0 <= i <= |ids|
        invariant coresInUse == SumValidCores(ids[..i], jobCores)
      {
        assert ids[..i + 1][..i] == ids[..i];
        if ids[i] in jobCores {
          coresInUse := coresInUse + jobCores[ids[i]];
        }
        i := i + 1;
      }
      assert ids[..|ids|] == ids;
    }

    /**
     * checkJobQueue's loop, proved against Schedule: the jobs it dequeues
     * leave the pending queue and those that start join the running ones.
     */
    static method RunQueue(pendingJobQueue: seq<IdType>, runningJobs: set<IdType>, coresAvailable: int,
                           jobCores: map<IdType, int>, starts: IdType -> bool)
      returns (queue: seq<IdType>, running: set<IdType>)
      ensures var o := Schedule(pendingJobQueue, coresAvailable, jobCores, starts);
        queue == pendingJobQueue[o.consumed..] && running == runningJobs + Elements(o.started)
    {
      var available: int;
      queue, running, available := pendingJobQueue, runningJobs, coresAvailable;
      ghost var consumed := 0;
      ghost var started: seq<IdType> := [];
      ghost var goal := Schedule(queue, coresAvailable, jobCores, starts);
      while queue != [] && available > 0
        invariant consumed <= |pendingJobQueue|
        invariant queue == pendingJobQueue[consumed..]
        invariant running == runningJobs + Elements(started)
        invariant var o := Schedule(queue, available, jobCores, starts);
          goal == Outcome(consumed + o.consumed, started + o.started, o.available)
      {
        var next := queue[0];
        if next in jobCores && jobCores[next] > available {
          // The next job cannot start yet.
          break;
        }
        RunStep(goal, consumed, started, queue, available, jobCores, starts);
        queue := queue[1..];
        consumed := consumed + 1;
        if next in jobCores && starts(next) {
          running := running + {next};
          available := available - jobCores[next];
          assert Elements(started + [next]) == Elements(started) + {next};
          started := started + [next];
        }
      }
    }

    /** writeJsonSettings: the generic settings, the core count, and (unless exporting) the running then pending jobs to resume. */
    function WriteJsonSettings(exportOnly: bool, includePrograms: bool): (json: Json)
      reads this, base, base.programs.Values
    {
      LocalJson(base.WriteJsonSettings(exportOnly, includePrograms), cores, RunningIds() + pendingJobQueue, exportOnly)
    }

    /**
     * What a local queue writes for its own state file, it reads back
     * whenever no job it holds has the invalid id: the generic checks pass, the running and pending jobs become the pending
     * queue, and the maximum number of cores is kept.
     */
    lemma WrittenLocalSettings(includePrograms: bool, idealThreadCount: int)
      requires InvalidId !in runningJobs && InvalidId !in pendingJobQueue
      ensures LocalSettingsValid(WriteJsonSettings(false, includePrograms), false)
      ensures base.SettingsValid(WriteJsonSettings(false, includePrograms), false, includePrograms)
      ensures ResumeIds(WriteJsonSettings(false, includePrograms), false) == RunningIds() + pendingJobQueue
      ensures MaxNumberOfCores(ReadCores(ToReal(Get(WriteJsonSettings(false, includePrograms), "cores"))), idealThreadCount) ==
              MaxNumberOfCores(cores, idealThreadCount)
    {
      var generic := base.WriteJsonSettings(false, includePrograms);
      var ids := RunningIds() + pendingJobQueue;
      LocalJsonReadBack(generic, cores, ids, idealThreadCount);
      base.WrittenSettingsValid(false, includePrograms, false);
      LocalJsonKeepsGeneric(generic, cores, ids, false, "type");
      LocalJsonKeepsGeneric(generic, cores, ids, false, "launchTemplate");
      LocalJsonKeepsGeneric(generic, cores, ids, false, "launchScriptName");
      LocalJsonKeepsGeneric(generic, cores, ids, false, "programs");
      LocalJsonKeepsGeneric(generic, cores, ids, false, "jobIdMap");
    }

    /**
     * readJsonSettings: nothing changes unless the local checks and then
     * the generic queue's checks pass; then the core count is read
     * (rounded) and the pending queue becomes the ids to resume.
     */
    method ReadJsonSettings(json: Json, importOnly: bool, includePrograms: bool) returns (ok: bool)
      requires Valid()
      modifies this, base
      ensures Valid()
      ensures ok <==> LocalSettingsValid(json, importOnly) && base.SettingsValid(json, importOnly, includePrograms)
      ensures !ok ==> cores == old(cores) && pendingJobQueue == old(pendingJobQueue)
      ensures !ok ==> base.programs == old(base.programs) && base.jobs == old(base.jobs)
      ensures ok ==> cores == ReadCores(ToReal(Get(json, "cores"))) && pendingJobQueue == ResumeIds(json, importOnly)
      ensures runningJobs == old(runningJobs) && stateChanges == old(stateChanges)
    {
      if !LocalSettingsValid(json, importOnly) {
        return false;
      }
      var jobsToResume := ResumeIds(json, importOnly);
      ok := base.ReadJsonSettings(json, importOnly, includePrograms);
      if !ok {
        return;
      }
      cores := ReadCores(ToReal(Get(json, "cores")));
      pendingJobQueue := jobsToResume;
    }
  }
}
