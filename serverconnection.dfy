/**
 * One client's connection on the server (molequeue/serverconnection.cpp):
 * listQueues requests wait in a FIFO of packet ids, submissions and
 * cancellations in tables from the job's MoleQueue id to the request's
 * packet id. A reply is sent only for a waiting request, which it consumes.
 *
 * The packets sent go to `sent` (built with the LegacyJsonRpc builders),
 * the connection's signals to `events`; the server's jobs live in a
 * LegacyJobManager.JobManager.
 */
module ServerConnection {
  import opened IdTypes
  import opened JsonValue
  import opened QtVariant
  import opened Wrappers
  import JobStates
  import Rpc = LegacyJsonRpc
  import Jobs = LegacyJobManager
  import JobIndex

  type Handle = JobIndex.Handle

  datatype Event =
    | QueueListRequested
    | JobSubmissionRequested(job: Handle)
    | JobCancellationRequested(moleQueueId: IdType)

  class Connection {
    const jobManager: Jobs.JobManager
    var listQueuesLUT: seq<IdType>
    var submissionLUT: map<IdType, IdType>
    var cancellationLUT: map<IdType, IdType>
    var ownedJobMoleQueueIds: seq<IdType>
    var sent: seq<Json>
    var events: seq<Event>

    ghost predicate Valid()
      reads this, jobManager
    {
      jobManager.Valid()
    }

    constructor (jobManager: Jobs.JobManager)
      ensures this.jobManager == jobManager
      ensures listQueuesLUT == [] && submissionLUT == map[] && cancellationLUT == map[]
      ensures ownedJobMoleQueueIds == [] && sent == [] && events == []
    {
      this.jobManager := jobManager;
      listQueuesLUT := [];
      submissionLUT, cancellationLUT := map[], map[];
      ownedJobMoleQueueIds := [];
      sent, events := [], [];
    }

    /** queueListRequestReceived: the packet id joins the back of the FIFO. */
    method QueueListRequestReceived(packetId: IdType)
      modifies this
      ensures listQueuesLUT == old(listQueuesLUT) + [packetId]
      ensures events == old(events) + [QueueListRequested]
      ensures submissionLUT == old(submissionLUT) && cancellationLUT == old(cancellationLUT) && sent == old(sent)
    {
      listQueuesLUT := listQueuesLUT + [packetId];
      events := events + [QueueListRequested];
    }

    /** sendQueueList: with no waiting request nothing is sent; otherwise the oldest request is answered. */
    method SendQueueList(queueList: seq<(string, seq<string>)>)
      modifies this
      ensures old(listQueuesLUT) == [] ==> listQueuesLUT == [] && sent == old(sent)
      ensures old(listQueuesLUT) != [] ==>
        listQueuesLUT == old(listQueuesLUT)[1..] &&
        sent == old(sent) + [Rpc.QueueListPacket(queueList, old(listQueuesLUT)[0])]
      ensures submissionLUT == old(submissionLUT) && cancellationLUT == old(cancellationLUT) && events == old(events)
    {
      if listQueuesLUT == [] {
        return;
      }
      var packetId := listQueuesLUT[0];
      listQueuesLUT := listQueuesLUT[1..];
      sent := sent + [Rpc.QueueListPacket(queueList, packetId)];
    }

    /**
     * jobSubmissionRequestReceived: the server's job manager makes the job
     * (`job` is the new job as the about-to-be-added hook leaves it), and
     * its MoleQueue id is recorded with the request's packet id.
     */
    method JobSubmissionRequestReceived(packetId: IdType, newHandle: Handle, job: Jobs.JobRecord)
      requires Valid() && newHandle !in jobManager.store
      modifies this, jobManager
      ensures Valid()
      ensures jobManager.jobs == old(jobManager.jobs) + [newHandle]
      ensures jobManager.store == old(jobManager.store)[newHandle := job]
      ensures submissionLUT == old(submissionLUT)[job.moleQueueId := packetId]
      ensures ownedJobMoleQueueIds == old(ownedJobMoleQueueIds) + [job.moleQueueId]
      ensures events == old(events) + [JobSubmissionRequested(newHandle)]
      ensures listQueuesLUT == old(listQueuesLUT) && cancellationLUT == old(cancellationLUT) && sent == old(sent)
    {
      var h := jobManager.NewJob(newHandle, job);
      submissionLUT := submissionLUT[job.moleQueueId := packetId];
      ownedJobMoleQueueIds := ownedJobMoleQueueIds + [job.moleQueueId];
      events := events + [JobSubmissionRequested(h)];
    }

    /** jobCancellationRequestReceived: the MoleQueue id is recorded with the request's packet id. */
    method JobCancellationRequestReceived(packetId: IdType, moleQueueId: IdType)
      modifies this
      ensures cancellationLUT == old(cancellationLUT)[moleQueueId := packetId]
      ensures events == old(events) + [JobCancellationRequested(moleQueueId)]
      ensures listQueuesLUT == old(listQueuesLUT) && submissionLUT == old(submissionLUT) && sent == old(sent)
    {
      cancellationLUT := cancellationLUT[moleQueueId := packetId];
      events := events + [JobCancellationRequested(moleQueueId)];
    }

    /**
     * sendSuccessfulSubmissionResponse: refused for an id with no waiting
     * submission; otherwise the entry is consumed and the confirmation goes
     * to the recorded packet id.
     */
    method SendSuccessfulSubmissionResponse(moleQueueId: IdType, queueJobId: IdType, workingDirectory: string)
      modifies this
      ensures moleQueueId !in submissionLUT
      ensures submissionLUT == old(submissionLUT) - {moleQueueId}
      ensures moleQueueId !in old(submissionLUT) ==> sent == old(sent)
      ensures moleQueueId in old(submissionLUT) ==>
        sent == old(sent) + [Rpc.SubmissionConfirmation(moleQueueId, queueJobId, workingDirectory, old(submissionLUT)[moleQueueId])]
      ensures listQueuesLUT == old(listQueuesLUT) && cancellationLUT == old(cancellationLUT) && events == old(events)
    {
      if moleQueueId !in submissionLUT {
        return;
      }
      var packetId := submissionLUT[moleQueueId];
      submissionLUT := submissionLUT - {moleQueueId};
      sent := sent + [Rpc.SubmissionConfirmation(moleQueueId, queueJobId, workingDirectory, packetId)];
    }

    /**
     * sendFailedSubmissionResponse: refused for an id with no waiting
     * submission; otherwise the entry is consumed and an error reply with
     * the code and message goes to the recorded packet id.
     */
    method SendFailedSubmissionResponse(moleQueueId: IdType, code: int, message: string)
      modifies this
      ensures moleQueueId !in submissionLUT
      ensures submissionLUT == old(submissionLUT) - {moleQueueId}
      ensures moleQueueId !in old(submissionLUT) ==> sent == old(sent)
      ensures moleQueueId in old(submissionLUT) ==>
        sent == old(sent) + [Rpc.ErrorResponse(code, message, None, JUInt(old(submissionLUT)[moleQueueId]))]
      ensures listQueuesLUT == old(listQueuesLUT) && cancellationLUT == old(cancellationLUT) && events == old(events)
    {
      if moleQueueId !in submissionLUT {
        return;
      }
      var packetId := submissionLUT[moleQueueId];
      submissionLUT := submissionLUT - {moleQueueId};
      sent := sent + [Rpc.ErrorResponse(code, message, None, JUInt(packetId))];
    }

    /**
     * sendSuccessfulCancellationResponse: refused for an id with no waiting
     * cancellation; otherwise the entry is consumed and the confirmation
     * goes to the recorded packet id.
     */
    method SendSuccessfulCancellationResponse(moleQueueId: IdType)
      modifies this
      ensures moleQueueId !in cancellationLUT
      ensures cancellationLUT == old(cancellationLUT) - {moleQueueId}
      ensures moleQueueId !in old(cancellationLUT) ==> sent == old(sent)
      ensures moleQueueId in old(cancellationLUT) ==>
        sent == old(sent) + [Rpc.CancellationConfirmation(moleQueueId, old(cancellationLUT)[moleQueueId])]
      ensures listQueuesLUT == old(listQueuesLUT) && submissionLUT == old(submissionLUT) && events == old(events)
    {
      if moleQueueId !in cancellationLUT {
        return;
      }
      var packetId := cancellationLUT[moleQueueId];
      cancellationLUT := cancellationLUT - {moleQueueId};
      sent := sent + [Rpc.CancellationConfirmation(moleQueueId, packetId)];
    }

    /** sendJobStateChangeNotification: always sent; no table is read or changed. */
    method SendJobStateChangeNotification(moleQueueId: IdType, oldState: JobStates.JobState, newState: JobStates.JobState)
      modifies this
      ensures sent == old(sent) + [Rpc.StateChangeNotification(moleQueueId, oldState, newState)]
      ensures listQueuesLUT == old(listQueuesLUT) && submissionLUT == old(submissionLUT)
      ensures cancellationLUT == old(cancellationLUT) && events == old(events)
    {
      sent := sent + [Rpc.StateChangeNotification(moleQueueId, oldState, newState)];
    }
  }
}
