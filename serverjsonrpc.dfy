/**
 * The server side of the JSON-RPC protocol (molequeue/serverjsonrpc.cpp):
 * the dispatch of incoming messages, the parameter checks of each request
 * handler, and the reply builders. The lemmas at the end connect each
 * builder with the client handler that reads its packet.
 */
module ServerJsonRpc {
  import opened Wrappers
  import opened JsonValue
  import opened QtVariant
  import opened IdTypes
  import opened RpcMethods
  import opened JsonRpcEnvelope
  import opened QtJson
  import JobStates
  import Transport = JsonRpcTransport
  import Client = ClientJsonRpc

  /** The signals the server announces for well-formed requests. */
  datatype ServerSignal =
    | QueueListRequestReceived
    | JobSubmissionRequestReceived(options: map<string, Variant>)
    | JobCancellationRequestReceived(moleQueueId: IdType)
    | LookupJobRequestReceived(moleQueueId: IdType)

  /** A signal, a request only warned about, a conversion that throws, or an invalid request. */
  datatype Reaction =
    | Emitted(signal: ServerSignal)
    | IllFormed
    | Threw
    | InvalidRequest

  /** handleCancelJobRequest and handleLookupJobRequest's check: object params with an integral moleQueueId. */
  function IdParam(json: Json): (r: Option<Option<IdType>>)
    ensures r.Some? <==> Get(json, "params").JObject? && IsIntegral(Get(Get(json, "params"), "moleQueueId"))
  {
    var params := Get(json, "params");
    if !params.JObject? || !IsIntegral(Get(params, "moleQueueId")) then None
    else Some(Client.AsId(Get(params, "moleQueueId")))
  }

  /**
   * handleMessage: the four request methods are handled only for requests;
   * jobStateChanged, unknown methods and every other form are invalid.
   */
  function HandleMessage(code: MethodCode, form: PacketForm, json: Json): (r: Reaction)
    ensures r.InvalidRequest? <==> !(code.Known? && code.m != JobStateChanged && form == RequestPacket)
    ensures code == Known(SubmitJob) && form == RequestPacket ==>
      (r.Emitted? <==> Get(json, "params").JObject?)
  {
    if !code.Known? || code.m == JobStateChanged || form != RequestPacket then InvalidRequest
    else match code.m
      case ListQueues => Emitted(QueueListRequestReceived)
      case SubmitJob =>
        var params := Get(json, "params");
        if !params.JObject? then IllFormed
        else Emitted(JobSubmissionRequestReceived(JsonToQt(params).entries))
      case CancelJob =>
        (match IdParam(json)
         case None => IllFormed
         case Some(None) => Threw
         case Some(Some(id)) => Emitted(JobCancellationRequestReceived(id)))
      case LookupJob =>
        (match IdParam(json)
         case None => IllFormed
         case Some(None) => Threw
         case Some(Some(id)) => Emitted(LookupJobRequestReceived(id)))
  }

  // ---- reply builders ----

  /** generateJobSubmissionConfirmation: the new moleQueueId and the working directory. */
  function SubmissionConfirmation(moleQueueId: IdType, workingDir: string, packetId: Json): Json {
    Set(EmptyResponse(packetId), "result",
        JObject(map["moleQueueId" := JUInt(moleQueueId), "workingDirectory" := JString(workingDir)]))
  }

  /** generateJobCancellationConfirmation: the result is the moleQueueId. */
  function CancellationConfirmation(moleQueueId: IdType, packetId: Json): Json {
    Set(EmptyResponse(packetId), "result", JUInt(moleQueueId))
  }

  /** generateJobCancellationError: code, message, and the moleQueueId as data. */
  function CancellationError(code: int, message: string, moleQueueId: IdType, packetId: Json): Json {
    var p := EmptyError(packetId);
    var withCode := Set(p, "error", Set(Get(p, "error"), "code", JInt(code)));
    var withMessage := Set(withCode, "error", Set(Get(withCode, "error"), "message", JString(message)));
    Set(withMessage, "error", Set(Get(withMessage, "error"), "data", JUInt(moleQueueId)))
  }

  /**
   * generateLookupJobResponse: for a job that is not valid (None), error 0
   * "Unknown MoleQueue ID" with the id as data; otherwise the job's hash.
   */
  function LookupJobResponse(job: Option<map<string, Variant>>, moleQueueId: IdType, packetId: Json): (p: Json)
    ensures job.None? ==> Get(Get(p, "error"), "code") == JInt(0)
                          && Get(Get(p, "error"), "message") == JString("Unknown MoleQueue ID")
                          && Get(Get(p, "error"), "data") == JUInt(moleQueueId)
    ensures job.Some? ==> Get(p, "result") == QtToJson(VHash(job.value)) && !Has(p, "error")
  {
    match job
    case None =>
      Set(EmptyError(packetId), "error",
          JObject(map["message" := JString("Unknown MoleQueue ID"), "code" := JInt(0), "data" := JUInt(moleQueueId)]))
    case Some(hash) => Set(EmptyResponse(packetId), "result", QtToJson(VHash(hash)))
  }

  /** A program list as a JSON array of strings. */
  function ProgramArray(programs: seq<string>): (a: Json)
    ensures a.JArray? && |a.items| == |programs|
  {
    JArray(seq(|programs|, i requires 0 <= i < |programs| => JString(programs[i])))
  }

  /** generateQueueList: an object mapping each queue name to its program array. */
  function QueueList(queues: map<string, seq<string>>, packetId: Json): Json {
    Set(EmptyResponse(packetId), "result",
        JObject(map name | name in queues :: ProgramArray(queues[name])))
  }

  /** generateJobStateChangeNotification: jobStateChanged, no id, the id and both state names. */
  function StateChangeNotification(moleQueueId: IdType, oldState: JobStates.JobState, newState: JobStates.JobState): (p: Json)
    ensures !Has(p, "id") && Get(p, "method") == JString("jobStateChanged")
  {
    Set(Set(EmptyNotification(), "method", JString("jobStateChanged")), "params",
        JObject(map["moleQueueId" := JUInt(moleQueueId),
                    "oldState" := JString(JobStates.Name(oldState)),
                    "newState" := JString(JobStates.Name(newState))]))
  }

  // ---- builders against the client's handlers ----

  /** Reading back a program array gives the program list. */
  lemma {:induction false} ProgramArrayRoundTrip(programs: seq<string>)
    ensures Client.StringItems(ProgramArray(programs).items) == programs
  {
    if programs != [] {
      var init := programs[..|programs| - 1];
      assert ProgramArray(programs).items[..|programs| - 1] == ProgramArray(init).items;
      ProgramArrayRoundTrip(init);
      assert programs == init + [programs[|programs| - 1]];
    }
  }

  /** The client reads the server's queue list back exactly. */
  lemma QueueListRoundTrip(queues: map<string, seq<string>>, packetId: IdType)
    ensures Client.ListQueuesResult(QueueList(queues, JUInt(packetId)))
         == Client.Emitted(Client.QueueListReceived(packetId, queues))
  {
    var members := map name | name in queues :: ProgramArray(queues[name]);
    forall name | name in queues
      ensures Client.ProgramsOf(members[name]) == queues[name]
    {
      ProgramArrayRoundTrip(queues[name]);
    }
    assert Client.QueueListOf(members) == queues;
  }

  /** The client reads the submission confirmation back exactly. */
  lemma SubmissionRoundTrip(moleQueueId: IdType, workingDir: string, packetId: IdType)
    ensures Client.SubmitJobResult(SubmissionConfirmation(moleQueueId, workingDir, JUInt(packetId)))
         == Client.Emitted(Client.SuccessfulSubmissionReceived(packetId, moleQueueId, workingDir))
  {
  }

  /** The client reads the cancellation confirmation back exactly. */
  lemma CancellationRoundTrip(moleQueueId: IdType, packetId: IdType)
    ensures Client.CancelJobResult(CancellationConfirmation(moleQueueId, JUInt(packetId)))
         == Client.Emitted(Client.JobCancellationConfirmationReceived(packetId, moleQueueId))
  {
  }

  /**
   * The client reads a cancellation error back when its code is not
   * negative; a negative code makes the client's unsigned read throw.
   */
  lemma CancellationErrorRoundTrip(code: int, message: string, moleQueueId: IdType, packetId: IdType)
    ensures 0 <= code < IdLimit ==>
      Client.CancelJobError(CancellationError(code, message, moleQueueId, JUInt(packetId)))
        == Client.Emitted(Client.JobCancellationErrorReceived(packetId, moleQueueId, code, message))
    ensures code < 0 ==>
      Client.CancelJobError(CancellationError(code, message, moleQueueId, JUInt(packetId))) == Client.Threw
  {
    CancellationErrorMembers(code, message, moleQueueId, JUInt(packetId));
    var error := Get(CancellationError(code, message, moleQueueId, JUInt(packetId)), "error");
    assert Client.AsId(JUInt(packetId)) == Some(packetId);
    assert Client.AsId(Get(error, "data")) == Some(moleQueueId);
    assert Client.ErrorWithIdData(error);
    if code >= 0 {
      assert Transport.AsLargestUInt(Get(error, "code")) == Some(code);
    } else {
      assert Transport.AsLargestUInt(Get(error, "code")) == None;
    }
  }

  /** The members of a cancellation error packet. */
  lemma CancellationErrorMembers(code: int, message: string, moleQueueId: IdType, packetId: Json)
    ensures var p := CancellationError(code, message, moleQueueId, packetId);
      Get(p, "id") == packetId && Get(Get(p, "error"), "code") == JInt(code) &&
      Get(Get(p, "error"), "message") == JString(message) && Get(Get(p, "error"), "data") == JUInt(moleQueueId)
  {
    var withCode := Set(EmptyError(packetId), "error", Set(JNull, "code", JInt(code)));
    var withMessage := Set(withCode, "error", Set(Get(withCode, "error"), "message", JString(message)));
    var error := Set(Get(withMessage, "error"), "data", JUInt(moleQueueId));
    assert "code"[0] != "data"[0];
    assert Get(error, "code") == JInt(code) && Get(error, "message") == JString(message);
  }

  /** The client reads a lookup reply back: the job's hash (integers widened), or the unknown id. */
  lemma LookupRoundTrip(job: Option<map<string, Variant>>, moleQueueId: IdType, packetId: IdType)
    requires job.Some? ==> Convertible(VHash(job.value))
    ensures job.Some? ==>
      Client.LookupJobResult(LookupJobResponse(job, moleQueueId, JUInt(packetId)))
        == Client.Emitted(Client.LookupJobResponseReceived(packetId, Widened(VHash(job.value)).entries))
    ensures job.None? ==>
      Client.LookupJobError(LookupJobResponse(job, moleQueueId, JUInt(packetId)))
        == Client.Emitted(Client.LookupJobErrorReceived(packetId, moleQueueId))
  {
    if job.Some? {
      QtJson.VariantRoundTrip(VHash(job.value));
    }
  }

  /** The client reads the state-change notification back exactly. */
  lemma StateChangeRoundTrip(moleQueueId: IdType, oldState: JobStates.JobState, newState: JobStates.JobState)
    ensures Client.JobStateChangedNotification(StateChangeNotification(moleQueueId, oldState, newState))
         == Client.Emitted(Client.JobStateChangeReceived(moleQueueId, oldState, newState))
  {
    JobStates.NameRoundTrip(oldState);
    JobStates.NameRoundTrip(newState);
  }

  // ---- the client's requests against the server's handlers ----

  /** The server reads the client's cancellation and lookup requests back exactly. */
  lemma IdRequestRoundTrip(moleQueueId: IdType, packetId: IdType)
    ensures HandleMessage(Known(CancelJob), RequestPacket, Client.CancellationPacket(moleQueueId, packetId))
         == Emitted(JobCancellationRequestReceived(moleQueueId))
    ensures HandleMessage(Known(LookupJob), RequestPacket, Client.LookupPacket(moleQueueId, packetId))
         == Emitted(LookupJobRequestReceived(moleQueueId))
  {
    IdPacketParam("cancelJob", moleQueueId, packetId);
    IdPacketParam("lookupJob", moleQueueId, packetId);
  }

  /** A request carrying a moleQueueId parameter yields exactly that id. */
  lemma IdPacketParam(name: string, moleQueueId: IdType, packetId: IdType)
    ensures IdParam(Set(Set(EmptyRequest(packetId), "method", JString(name)), "params",
                        JObject(map["moleQueueId" := JUInt(moleQueueId)]))) == Some(Some(moleQueueId))
  {
    var params := JObject(map["moleQueueId" := JUInt(moleQueueId)]);
    assert Get(Set(Set(EmptyRequest(packetId), "method", JString(name)), "params", params), "params") == params;
    assert Client.AsId(JUInt(moleQueueId)) == Some(moleQueueId);
  }

  /** The server reads the client's job request back as the job's hash, integers widened. */
  lemma JobRequestRoundTrip(hash: map<string, Variant>, packetId: IdType)
    requires Convertible(VHash(hash))
    ensures HandleMessage(Known(SubmitJob), RequestPacket, Client.JobRequestPacket(hash, packetId))
         == Emitted(JobSubmissionRequestReceived(Widened(VHash(hash)).entries))
  {
    QtJson.VariantRoundTrip(VHash(hash));
  }

  /**
   * End to end: after the client registers a queue-list request, the
   * server's reply is interpreted once, reaches the client's list handler,
   * and announces exactly the server's queues.
   */
  lemma QueueListExchange(pending: map<IdType, RpcMethod>, queues: map<string, seq<string>>, packetId: IdType)
    ensures var reply := QueueList(queues, JUInt(packetId));
      var o := Transport.Interpret(pending[packetId := ListQueues], reply);
      && o.events == [Transport.HandlePacket(ListQueues, ResultPacket, reply)]
      && packetId !in o.pending
      && Client.HandlePacket(ListQueues, ResultPacket, reply) == Client.Emitted(Client.QueueListReceived(packetId, queues))
  {
    var result := JObject(map name | name in queues :: ProgramArray(queues[name]));
    Transport.RegisteredReplyHandledOnce(pending, packetId, ListQueues, result);
    QueueListRoundTrip(queues, packetId);
  }
}
