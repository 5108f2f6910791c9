/**
 * The C++ client (molequeue/client.cpp): the tables that pair each
 * submission and cancellation request's packet id with the job it is about,
 * and the handlers that consume them when the reply arrives. A reply whose
 * packet id is not in its table is refused, and a handled reply takes its
 * entry out, so each request is answered at most once.
 *
 * Packet ids come from the interface's counter and are parameters here; the
 * packets sent go to `sent`, the client's signals to `events`. The client's
 * jobs live in an AppJobManager.JobManager, where a JobRequest is valid
 * while its job is held.
 */
module CppClient {
  import opened Wrappers
  import opened IdTypes
  import opened JsonValue
  import opened QtVariant
  import JobStates
  import opened JobDataModel
  import Rpc = ClientJsonRpc
  import Jobs = AppJobManager
  import JobIndex
  import FileInfo

  type Handle = JobIndex.Handle

  datatype Event =
    | QueueListUpdated(queues: map<string, seq<string>>)
    | JobSubmitted(job: Handle, success: bool, message: string)
    | JobCanceled(job: Handle, success: bool, message: string)
    | LookupJobComplete(found: Option<Handle>, moleQueueId: IdType)
    | JobStateChanged(job: Handle, oldState: JobStates.JobState, newState: JobStates.JobState)

  /** The id a lookup reply's hash names: its moleQueueId read at 64 bits, InvalidId when absent. */
  function LookupId(hash: map<string, Variant>): (id: IdType)
    ensures "moleQueueId" !in hash ==> id == InvalidId
    ensures "moleQueueId" in hash ==> id == FromHash(hash).moleQueueId
  {
    ToULongLong(ValueOr(hash, "moleQueueId", VULongLong(InvalidId)))
  }

  /**
   * A confirmed job: it takes the MoleQueue id and the working directory,
   * which also becomes its output directory when that is empty.
   */
  function Adopted(f: JobFields, moleQueueId: IdType, dir: string): (g: JobFields)
    ensures g.moleQueueId == moleQueueId && g.localWorkingDirectory == dir
    ensures g.outputDirectory == (if f.outputDirectory == "" then dir else f.outputDirectory)
    ensures g.(moleQueueId := f.moleQueueId, localWorkingDirectory := f.localWorkingDirectory,
               outputDirectory := f.outputDirectory) == f
  {
    f.(moleQueueId := moleQueueId, localWorkingDirectory := dir,
       outputDirectory := if f.outputDirectory == "" then dir else f.outputDirectory)
  }

  class Client {
    const jobManager: Jobs.JobManager
    var submittedLUT: map<IdType, Handle>
    var canceledLUT: map<IdType, Handle>
    var queueList: map<string, seq<string>>
    var sent: seq<Json>
    var events: seq<Event>

    ghost predicate Valid()
      reads this, jobManager
    {
      jobManager.Valid()
    }

    constructor ()
      ensures Valid() && fresh(jobManager)
      ensures jobManager.jobs == [] && jobManager.moleQueueMap == map[]
      ensures submittedLUT == map[] && canceledLUT == map[] && queueList == map[]
      ensures sent == [] && events == []
    {
      jobManager := new Jobs.JobManager();
      submittedLUT, canceledLUT := map[], map[];
      queueList := map[];
      sent, events := [], [];
    }

    /** What a JobRequest exports: the job's hash while it is held, nothing otherwise. */
    function RequestHash(req: Handle): map<string, Variant>
      reads this, jobManager
    {
      if req in jobManager.store then Hash(jobManager.store[req]) else map[]
    }

    /** The hash sent for a held job reads back as that job's data; a dangling handle sends an empty hash. */
    lemma RequestHashReadBack(req: Handle)
      ensures req in jobManager.store ==> FromHash(RequestHash(req)) == jobManager.store[req]
      ensures req !in jobManager.store ==> RequestHash(req) == map[]
    {
      if req in jobManager.store {
        HashRoundTrip(jobManager.store[req]);
      }
    }

    /** A JobRequest's moleQueueId: the held job's id, InvalidId otherwise. */
    function RequestId(req: Handle): (id: IdType)
      reads this, jobManager
      ensures req !in jobManager.store ==> id == InvalidId
    {
      if req in jobManager.store then jobManager.store[req].moleQueueId else InvalidId
    }

    /** submitJobRequest: the packet id is recorded for the job before the request is sent. */
    method SubmitJobRequest(req: Handle, packetId: IdType)
      modifies this
      ensures submittedLUT == old(submittedLUT)[packetId := req]
      ensures sent == old(sent) + [Rpc.JobRequestPacket(old(RequestHash(req)), packetId)]
      ensures canceledLUT == old(canceledLUT) && queueList == old(queueList) && events == old(events)
    {
      var packet := Rpc.JobRequestPacket(RequestHash(req), packetId);
      submittedLUT := submittedLUT[packetId := req];
      sent := sent + [packet];
    }

    /** cancelJob: the packet id is recorded for the job before the cancellation is sent. */
    method CancelJob(req: Handle, packetId: IdType)
      modifies this
      ensures canceledLUT == old(canceledLUT)[packetId := req]
      ensures sent == old(sent) + [Rpc.CancellationPacket(old(RequestId(req)), packetId)]
      ensures submittedLUT == old(submittedLUT) && queueList == old(queueList) && events == old(events)
    {
      var packet := Rpc.CancellationPacket(RequestId(req), packetId);
      canceledLUT := canceledLUT[packetId := req];
      sent := sent + [packet];
    }

    /** lookupJob: the request is sent; no table records it. */
    method LookupJob(moleQueueId: IdType, packetId: IdType)
      modifies this
      ensures sent == old(sent) + [Rpc.LookupPacket(moleQueueId, packetId)]
      ensures submittedLUT == old(submittedLUT) && canceledLUT == old(canceledLUT) && events == old(events)
    {
      sent := sent + [Rpc.LookupPacket(moleQueueId, packetId)];
    }

    /** requestQueueListUpdate: the request is sent; no table records it. */
    method RequestQueueListUpdate(packetId: IdType)
      modifies this
      ensures sent == old(sent) + [Rpc.QueueListRequestPacket(packetId)]
      ensures submittedLUT == old(submittedLUT) && canceledLUT == old(canceledLUT) && events == old(events)
    {
      sent := sent + [Rpc.QueueListRequestPacket(packetId)];
    }

    /** queueListReceived: the list replaces the stored one and is announced. */
    method QueueListReceived(list: map<string, seq<string>>)
      modifies this
      ensures queueList == list
      ensures events == old(events) + [QueueListUpdated(list)]
      ensures submittedLUT == old(submittedLUT) && canceledLUT == old(canceledLUT) && sent == old(sent)
    {
      queueList := list;
      events := events + [QueueListUpdated(list)];
    }

    /**
     * successfulSubmissionReceived: an unknown packet id is refused; a known
     * one is taken out of the table. A job still held takes the MoleQueue id
     * and the absolute path of the working directory (which also becomes an
     * empty output directory), is mapped under the id, and the submission is
     * announced. `cwd` is the process's current directory.
     */
    method SuccessfulSubmissionReceived(packetId: IdType, moleQueueId: IdType, workingDir: string, cwd: string)
      requires Valid()
      modifies this, jobManager
      ensures Valid()
      ensures packetId !in submittedLUT
      ensures packetId !in old(submittedLUT) ==>
        submittedLUT == old(submittedLUT) && events == old(events) &&
        jobManager.store == old(jobManager.store) && jobManager.moleQueueMap == old(jobManager.moleQueueMap)
      ensures packetId in old(submittedLUT) ==> submittedLUT == old(submittedLUT) - {packetId}
      ensures packetId in old(submittedLUT) && old(submittedLUT)[packetId] !in old(jobManager.store) ==>
        events == old(events) && jobManager.store == old(jobManager.store)
      ensures packetId in old(submittedLUT) && old(submittedLUT)[packetId] in old(jobManager.store) ==>
        var h := old(submittedLUT)[packetId];
        jobManager.store
          == old(jobManager.store)[h := Adopted(old(jobManager.store)[h], moleQueueId, FileInfo.DirAbsolutePath(workingDir, cwd))] &&
        jobManager.Lookup(moleQueueId) == Some(h) &&
        events == old(events) + [JobSubmitted(h, true, "")]
      ensures jobManager.jobs == old(jobManager.jobs)
      ensures canceledLUT == old(canceledLUT) && sent == old(sent)
    {
      if packetId !in submittedLUT {
        return;
      }
      var h := submittedLUT[packetId];
      submittedLUT := submittedLUT - {packetId};
      if h !in jobManager.jobs {
        return;
      }
      AdoptSubmission(h, moleQueueId, workingDir, cwd);
      events := events + [JobSubmitted(h, true, "")];
    }

    /** The held job takes the confirmed id and (absolute) working directory and is mapped under the id. */
    method AdoptSubmission(h: Handle, moleQueueId: IdType, workingDir: string, cwd: string)
      requires Valid() && h in jobManager.jobs
      modifies jobManager
      ensures Valid()
      ensures jobManager.store
           == old(jobManager.store)[h := Adopted(old(jobManager.store)[h], moleQueueId, FileInfo.DirAbsolutePath(workingDir, cwd))]
      ensures jobManager.Lookup(moleQueueId) == Some(h)
      ensures jobManager.jobs == old(jobManager.jobs)
    {
      var before := jobManager.store;
      var f := before[h];
      var adopted := Adopted(f, moleQueueId, FileInfo.DirAbsolutePath(workingDir, cwd));
      var moved := adopted.(moleQueueId := f.moleQueueId);
      assert moved.(moleQueueId := moleQueueId) == adopted;
      jobManager.UpdateJob(h, moved);
      jobManager.SetMoleQueueId(h, moleQueueId);
      assert before[h := moved][h := adopted] == before[h := adopted];
    }

    /** failedSubmissionReceived: an unknown packet id is refused; a known one is taken and, for a held job, the failure announced. */
    method FailedSubmissionReceived(packetId: IdType, code: int, message: string)
      requires Valid()
      modifies this
      ensures Valid()
      ensures packetId !in submittedLUT
      ensures submittedLUT == old(submittedLUT) - {packetId}
      ensures packetId in old(submittedLUT) && old(submittedLUT)[packetId] in jobManager.store ==>
        events == old(events) + [JobSubmitted(old(submittedLUT)[packetId], false, message)]
      ensures !(packetId in old(submittedLUT) && old(submittedLUT)[packetId] in jobManager.store) ==>
        events == old(events)
      ensures canceledLUT == old(canceledLUT) && sent == old(sent)
    {
      if packetId !in submittedLUT {
        return;
      }
      var h := submittedLUT[packetId];
      submittedLUT := submittedLUT - {packetId};
      if h !in jobManager.store {
        return;
      }
      events := events + [JobSubmitted(h, false, message)];
    }

    /**
     * The cancellation replies (confirmation, or error with its message): an
     * unknown packet id is refused; a known one is taken and, for a held
     * job, the outcome announced. A mismatching moleQueueId is only warned
     * about.
     */
    method CancellationReceived(packetId: IdType, moleQueueId: IdType, success: bool, message: string)
      requires Valid()
      modifies this
      ensures Valid()
      ensures packetId !in canceledLUT
      ensures canceledLUT == old(canceledLUT) - {packetId}
      ensures packetId in old(canceledLUT) && old(canceledLUT)[packetId] in jobManager.store ==>
        events == old(events) + [JobCanceled(old(canceledLUT)[packetId], success, if success then "" else message)]
      ensures !(packetId in old(canceledLUT) && old(canceledLUT)[packetId] in jobManager.store) ==>
        events == old(events)
      ensures submittedLUT == old(submittedLUT) && sent == old(sent)
    {
      if packetId !in canceledLUT {
        return;
      }
      var h := canceledLUT[packetId];
      canceledLUT := canceledLUT - {packetId};
      if h !in jobManager.store {
        return;
      }
      events := events + [JobCanceled(h, success, if success then "" else message)];
    }

    /**
     * lookupJobResponseReceived: a hash without a valid id is ignored; a job
     * already held under the id takes the hash's fields; otherwise a new job
     * (newHandle) is made from the hash and mapped under the id.
     */
    method LookupJobResponseReceived(hash: map<string, Variant>, newHandle: Handle)
      requires Valid() && newHandle !in jobManager.store
      modifies this, jobManager
      ensures Valid()
      ensures LookupId(hash) == InvalidId ==>
        events == old(events) && jobManager.store == old(jobManager.store) &&
        jobManager.jobs == old(jobManager.jobs)
      ensures LookupId(hash) != InvalidId ==>
        var id := LookupId(hash);
        var h := if id in old(jobManager.moleQueueMap) then old(jobManager.moleQueueMap)[id] else newHandle;
        jobManager.store == old(jobManager.store)[h := FromHash(hash)] &&
        jobManager.Lookup(id) == Some(h) &&
        (id !in old(jobManager.moleQueueMap) ==> jobManager.jobs == old(jobManager.jobs) + [newHandle]) &&
        events == old(events) + [LookupJobComplete(Some(h), id)]
      ensures submittedLUT == old(submittedLUT) && canceledLUT == old(canceledLUT) && sent == old(sent)
    {
      var id := LookupId(hash);
      if id == InvalidId {
        return;
      }
      var h := StoreLookedUpJob(hash, id, newHandle);
      events := events + [LookupJobComplete(Some(h), id)];
    }

    /** The job held under id takes the hash's fields; without one, a new job is made from the hash and mapped under id. */
    method StoreLookedUpJob(hash: map<string, Variant>, id: IdType, newHandle: Handle) returns (h: Handle)
      requires Valid() && newHandle !in jobManager.store
      requires id != InvalidId && id == LookupId(hash)
      modifies jobManager
      ensures Valid()
      ensures h == if id in old(jobManager.moleQueueMap) then old(jobManager.moleQueueMap)[id] else newHandle
      ensures jobManager.store == old(jobManager.store)[h := FromHash(hash)]
      ensures jobManager.Lookup(id) == Some(h)
      ensures id in old(jobManager.moleQueueMap) ==> jobManager.jobs == old(jobManager.jobs)
      ensures id !in old(jobManager.moleQueueMap) ==> jobManager.jobs == old(jobManager.jobs) + [newHandle]
    {
      var job := jobManager.Lookup(id);
      if job.Some? {
        h := job.value;
        jobManager.UpdateJob(h, FromHash(hash));
      } else {
        var before: map<Handle, JobFields> := jobManager.store;
        var imported := FromHash(hash);
        var unnumbered := imported.(moleQueueId := InvalidId);
        assert unnumbered.(moleQueueId := id) == imported;
        h := jobManager.NewJobFromState(imported, newHandle, InvalidId);
        assert jobManager.store == before[h := unnumbered];
        jobManager.SetMoleQueueId(h, id);
        assert before[h := unnumbered][h := imported] == before[h := imported];
      }
    }

    /** lookupJobErrorReceived: ignored for InvalidId, otherwise an empty lookup result is announced. */
    method LookupJobErrorReceived(moleQueueId: IdType)
      modifies this
      ensures moleQueueId == InvalidId ==> events == old(events)
      ensures moleQueueId != InvalidId ==> events == old(events) + [LookupJobComplete(None, moleQueueId)]
      ensures submittedLUT == old(submittedLUT) && canceledLUT == old(canceledLUT) && sent == old(sent)
    {
      if moleQueueId == InvalidId {
        return;
      }
      events := events + [LookupJobComplete(None, moleQueueId)];
    }

    /**
     * jobStateChangeReceived: an unknown id is ignored; otherwise the job
     * takes the new state before the change is announced.
     */
    method JobStateChangeReceived(moleQueueId: IdType, oldState: JobStates.JobState, newState: JobStates.JobState)
      requires Valid()
      modifies this, jobManager
      ensures Valid()
      ensures moleQueueId !in old(jobManager.moleQueueMap) ==>
        events == old(events) && jobManager.store == old(jobManager.store)
      ensures moleQueueId in old(jobManager.moleQueueMap) ==>
        var h := old(jobManager.moleQueueMap)[moleQueueId];
        h in jobManager.store && jobManager.store[h].jobState == newState &&
        events == old(events) + [JobStateChanged(h, oldState, newState)]
      ensures submittedLUT == old(submittedLUT) && canceledLUT == old(canceledLUT) && sent == old(sent)
    {
      var job := jobManager.Lookup(moleQueueId);
      if job.None? {
        return;
      }
      jobManager.SetJobState(moleQueueId, newState);
      events := events + [JobStateChanged(job.value, oldState, newState)];
    }
  }
}
