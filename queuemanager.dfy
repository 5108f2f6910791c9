/**
 * The application's queue registry (app/queuemanager.cpp): queues filed by
 * name, created from a type name, removed, renamed and listed with their
 * programs.
 *
 * The queueAdded / queueRemoved / queueRenamed signals go to `events`; the
 * state files present in the configuration directory are `stateFiles`. The
 * platform, the build option for ezHPC UIT queues and the configuration
 * directory's sources (the server's working directory, or the
 * workingDirectoryBase setting without a server) are fixed when the
 * manager is made.
 */
module QueueManagers {
  import opened Wrappers
  import opened TextOps
  import Queues

  datatype Event =
    | QueueAdded(name: string, queue: Queues.Queue)
    | QueueRemoved(name: string, queue: Queues.Queue)
    | QueueRenamed(newName: string, queue: Queues.Queue, oldName: string)

  /** availableQueues: every queue type name, the ezHPC UIT type only in builds with UIT support. */
  function AvailableQueues(uitEnabled: bool): (r: seq<string>)
    ensures forall k :: Queues.TypeName(k) in r <==> k != Queues.Uit || uitEnabled
    ensures forall t :: t in r ==> exists k :: Queues.TypeName(k) == t
    ensures |r| == if uitEnabled then 6 else 5
  {
    var common := [Queues.TypeName(Queues.Local), Queues.TypeName(Queues.Sge), Queues.TypeName(Queues.Pbs),
                   Queues.TypeName(Queues.Slurm), Queues.TypeName(Queues.Oar)];
    if uitEnabled then common + [Queues.TypeName(Queues.Uit)] else common
  }

  /** queueTypeIsValid: the type is one of the available queue types. */
  predicate QueueTypeIsValid(queueType: string, uitEnabled: bool) {
    queueType in AvailableQueues(uitEnabled)
  }

  /** The kind of queue addQueue creates for a type name, if any. */
  function KindOf(queueType: string, uitEnabled: bool): (r: Option<Queues.QueueKind>)
    ensures r.Some? ==> Queues.TypeName(r.value) == queueType
  {
    if queueType == "Local" then Some(Queues.Local)
    else if queueType == "Sun Grid Engine" then Some(Queues.Sge)
    else if queueType == "PBS/Torque" then Some(Queues.Pbs)
    else if queueType == "SLURM" then Some(Queues.Slurm)
    else if queueType == "OAR" then Some(Queues.Oar)
    else if uitEnabled && queueType == "ezHPC UIT" then Some(Queues.Uit)
    else None
  }

  /** addQueue creates a queue for exactly the types availableQueues lists. */
  lemma KindOfValid(queueType: string, uitEnabled: bool)
    ensures KindOf(queueType, uitEnabled).Some? <==> QueueTypeIsValid(queueType, uitEnabled)
  {
    var r := AvailableQueues(uitEnabled);
    if queueType in r {
      var i :| 0 <= i < |r| && r[i] == queueType;
      assert i < 5 || (uitEnabled && i == 5);
    }
  }

  /**
   * queueConfigDirectory: the server's working directory base, or the
   * workingDirectoryBase setting without a server, followed by
   * "/config/queues"; nothing when that base is empty.
   */
  function QueueConfigDirectory(serverBase: Option<string>, settingsBase: string): (r: string)
    ensures r == "" <==> (if serverBase.Some? then serverBase.value else settingsBase) == ""
    ensures r != "" ==>
      EndsWith(r, "/config/queues") && StartsWith(r, if serverBase.Some? then serverBase.value else settingsBase)
  {
    var base := if serverBase.Some? then serverBase.value else settingsBase;
    if base == "" then "" else base + "/config/queues"
  }

  /** QFile::remove of a state file, skipped for the empty name stateFileName gives without a directory. */
  function Removed(files: set<string>, file: string): (r: set<string>)
    ensures file !in r || file == ""
    ensures forall f :: f in files && f != file ==> f in r
    ensures r <= files
  {
    if file == "" then files else files - {file}
  }

  /**
   * The state files after a rename as queueNameChanged is written: the file
   * removed is stateFileName() of the queue, which already carries its new
   * name, and writeSettings then writes that same file.
   */
  function RenameFilesAsWritten(files: set<string>, configDirectory: string, newName: string, oldName: string): set<string> {
    var file := Queues.StateFile(configDirectory, newName);
    if file == "" then files else Removed(files, file) + {file}
  }

  /** A rename as written leaves the state file under the old name behind. */
  lemma RenameAsWrittenKeepsOldFile(files: set<string>, configDirectory: string, newName: string, oldName: string)
    requires configDirectory != "" && newName != oldName
    requires Queues.StateFile(configDirectory, oldName) in files
    ensures Queues.StateFile(configDirectory, oldName) in RenameFilesAsWritten(files, configDirectory, newName, oldName)
  {
    Queues.StateFileInjective(configDirectory, oldName, newName);
  }

  /** The example: renaming queue "A" to "B" keeps "A.mqq" beside the new "B.mqq". */
  lemma RenameAsWrittenExample()
    ensures RenameFilesAsWritten({"/w/config/queues/A.mqq"}, "/w/config/queues", "B", "A") ==
            {"/w/config/queues/A.mqq", "/w/config/queues/B.mqq"}
  {
    assert Queues.StateFile("/w/config/queues", "B") == "/w/config/queues/B.mqq";
    assert "/w/config/queues/A.mqq" != "/w/config/queues/B.mqq" by {
      assert "/w/config/queues/A.mqq"[17] != "/w/config/queues/B.mqq"[17];
    }
  }

  /**
   * The state files after a rename as intended: the file under the old name
   * is removed and the file under the new name is written.
   */
  function RenameFiles(files: set<string>, configDirectory: string, newName: string, oldName: string): (r: set<string>)
    ensures configDirectory == "" ==> r == files
    ensures configDirectory != "" ==>
      Queues.StateFile(configDirectory, newName) in r &&
      (newName != oldName ==> Queues.StateFile(configDirectory, oldName) !in r) &&
      forall f :: f in files && f != Queues.StateFile(configDirectory, oldName) ==> f in r
  {
    if configDirectory == "" then files
    else
      StateFilesDiffer(configDirectory, newName, oldName);
      Removed(files, Queues.StateFile(configDirectory, oldName)) + {Queues.StateFile(configDirectory, newName)}
  }

  /** Different names, different files; only needed where the names differ. */
  lemma StateFilesDiffer(configDirectory: string, newName: string, oldName: string)
    requires configDirectory != ""
    ensures newName != oldName ==> Queues.StateFile(configDirectory, newName) != Queues.StateFile(configDirectory, oldName)
  {
    if newName != oldName {
      Queues.StateFileInjective(configDirectory, newName, oldName);
    }
  }

  /** The launch template and launch script name a new queue of each kind starts with. */
  type LaunchDefaults = Queues.QueueKind -> (string, string)

  class QueueManager {
    var queues: map<string, Queues.Queue>
    var events: seq<Event>
    var stateFiles: set<string>
    const uitEnabled: bool
    const serverBase: Option<string>
    const settingsBase: string
    const defaults: LaunchDefaults

    /** Each queue is filed under its own name. */
    ghost predicate Valid()
      reads this, queues.Values
    {
      forall k :: k in queues ==> queues[k].name == k
    }

    constructor (uitEnabled: bool, serverBase: Option<string>, settingsBase: string, defaults: LaunchDefaults,
                 stateFiles: set<string>)
      ensures Valid()
      ensures queues == map[] && events == [] && this.stateFiles == stateFiles
      ensures this.uitEnabled == uitEnabled && this.serverBase == serverBase
      ensures this.settingsBase == settingsBase && this.defaults == defaults
    {
      queues, events := map[], [];
      this.stateFiles := stateFiles;
      this.uitEnabled := uitEnabled;
      this.serverBase := serverBase;
      this.settingsBase := settingsBase;
      this.defaults := defaults;
    }

    function ConfigDirectory(): string
      reads this
    {
      QueueConfigDirectory(serverBase, settingsBase)
    }

    /**
     * addQueue: a name already held is refused unless replace is set, in
     * which case the old queue is dropped (and stays dropped even when the
     * type turns out to be unknown); an unknown type is refused; otherwise
     * a new queue of that kind is filed under the name and announced.
     */
    method AddQueue(queueName: string, queueType: string, replace: bool) returns (r: Option<Queues.Queue>)
      requires Valid()
      modifies this
      ensures Valid()
      ensures r.Some? <==> (queueName !in old(queues) || replace) && QueueTypeIsValid(queueType, uitEnabled)
      ensures queueName in old(queues) && !replace ==> queues == old(queues) && events == old(events)
      ensures (queueName !in old(queues) || replace) && r.None? ==>
        queues == old(queues) - {queueName} && events == old(events)
      ensures r.Some? ==>
        fresh(r.value) && r.value.name == queueName && Queues.TypeName(r.value.kind) == queueType &&
        (r.value.launchTemplate, r.value.launchScriptName) == defaults(r.value.kind) &&
        r.value.programs == map[] && r.value.jobs == map[] &&
        queues == old(queues)[queueName := r.value] &&
        events == old(events) + [QueueAdded(queueName, r.value)]
      ensures stateFiles == old(stateFiles)
    {
      KindOfValid(queueType, uitEnabled);
      if queueName in queues && !replace {
        return None;
      }
      Forget(queueName);
      var kind := KindOf(queueType, uitEnabled);
      if kind.None? {
        return None;
      }
      var queue := Install(queueName, kind.value);
      r := Some(queue);
    }

    /** addQueue replacing a queue: the old one is dropped without being announced. */
    method Forget(queueName: string)
      requires Valid()
      modifies this
      ensures Valid()
      ensures queues == old(queues) - {queueName}
      ensures events == old(events) && stateFiles == old(stateFiles)
    {
      queues := queues - {queueName};
    }

    /** The tail of addQueue: a new queue of the kind, with its defaults, filed under its name and announced. */
    method Install(queueName: string, kind: Queues.QueueKind) returns (queue: Queues.Queue)
      requires Valid()
      modifies this
      ensures Valid()
      ensures fresh(queue) && queue.name == queueName && queue.kind == kind
      ensures (queue.launchTemplate, queue.launchScriptName) == defaults(kind)
      ensures queue.programs == map[] && queue.jobs == map[]
      ensures queues == old(queues)[queueName := queue] && events == old(events) + [QueueAdded(queueName, queue)]
      ensures stateFiles == old(stateFiles)
    {
      var (template, scriptName) := defaults(kind);
      queue := new Queues.Queue(queueName, kind, template, scriptName);
      queues := queues[queueName := queue];
      events := events + [QueueAdded(queueName, queue)];
    }

    /**
     * removeQueue(name): an unknown name is refused; otherwise the queue is
     * dropped, announced, and its state file (when there is a configuration
     * directory) is removed.
     */
    method RemoveQueue(queueName: string) returns (ok: bool)
      requires Valid()
      modifies this
      ensures Valid()
      ensures ok <==> queueName in old(queues)
      ensures queues == old(queues) - {queueName}
      ensures !ok ==> events == old(events) && stateFiles == old(stateFiles)
      ensures ok ==> events == old(events) + [QueueRemoved(queueName, old(queues)[queueName])]
      ensures ok ==> stateFiles == Removed(old(stateFiles), Queues.StateFile(ConfigDirectory(), queueName))
    {
      if queueName !in queues {
        return false;
      }
      var queue := queues[queueName];
      queues := queues - {queueName};
      events := events + [QueueRemoved(queueName, queue)];
      var fileName := queue.StateFileName(ConfigDirectory());
      if fileName != "" {
        stateFiles := stateFiles - {fileName};
      }
      ok := true;
    }

    /** removeQueue(queue): by the queue's name. */
    method RemoveQueueObject(queue: Queues.Queue) returns (ok: bool)
      requires Valid()
      modifies this
      ensures Valid()
      ensures ok <==> queue.name in old(queues)
      ensures queues == old(queues) - {queue.name}
    {
      ok := RemoveQueue(queue.name);
    }

    /**
     * queueNameChanged: when the queue filed under oldName now calls itself
     * newName, its state file moves from the old name to the new one, it is
     * filed under newName instead and the rename is announced; any other
     * call changes nothing.
     */
    method QueueNameChanged(newName: string, oldName: string)
      modifies this
      ensures oldName in old(queues) && old(queues)[oldName].name == newName ==>
        queues == (old(queues) - {oldName})[newName := old(queues)[oldName]] &&
        events == old(events) + [QueueRenamed(newName, old(queues)[oldName], oldName)] &&
        stateFiles == RenameFiles(old(stateFiles), ConfigDirectory(), newName, oldName)
      ensures !(oldName in old(queues) && old(queues)[oldName].name == newName) ==>
        queues == old(queues) && events == old(events) && stateFiles == old(stateFiles)
    {
      if oldName in queues {
        var queue := queues[oldName];
        if queue.name == newName {
          stateFiles := RenameFiles(stateFiles, ConfigDirectory(), newName, oldName);
          queues := (queues - {oldName})[newName := queue];
          events := events + [QueueRenamed(newName, queue, oldName)];
        }
      }
    }

    /**
     * Renaming a queue of this manager (the queue's setName followed by the
     * nameChanged connection to queueNameChanged) files it under its new
     * name and keeps every queue under its own name.
     */
    method RenameQueue(queue: Queues.Queue, newName: string)
      requires Valid() && queue in queues.Values
      modifies this, queue
      ensures Valid()
      ensures queue.name == newName
      ensures queues == if newName == old(queue.name) then old(queues)
                        else (old(queues) - {old(queue.name)})[newName := queue]
    {
      ghost var oldQueues := queues;
      var oldName := queue.name;
      assert queues[oldName] == queue by {
        var k :| k in queues && queues[k] == queue;
      }
      queue.name := newName;
      if newName != oldName {
        QueueNameChanged(newName, oldName);
        forall k | k in queues
          ensures queues[k].name == k
        {
          if k != newName {
            assert k in oldQueues && k != oldName && queues[k] == oldQueues[k];
            assert oldQueues[k] != queue;
          }
        }
      }
    }

    /** toQueueList: each queue's name with the names of its programs. */
    function ToQueueList(): (r: map<string, set<string>>)
      reads this, queues.Values
      requires Valid()
      ensures r.Keys == queues.Keys
      ensures forall k :: k in r ==> r[k] == queues[k].programs.Keys
    {
      map k | k in queues :: queues[k].programs.Keys
    }
  }
}
