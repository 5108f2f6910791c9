/**
 * The client side of the JSON-RPC protocol (molequeue/clientjsonrpc.cpp):
 * the request builders, which register each packet id with its method, and
 * the handlers that check a reply's members before announcing it.
 */
module ClientJsonRpc {
  import opened Wrappers
  import opened JsonValue
  import opened QtVariant
  import opened IdTypes
  import opened RpcMethods
  import opened JsonRpcEnvelope
  import opened QtJson
  import JobStates
  import Transport = JsonRpcTransport

  /** The signals the client announces. */
  datatype ClientSignal =
    | QueueListReceived(packetId: IdType, queues: map<string, seq<string>>)
    | SuccessfulSubmissionReceived(packetId: IdType, moleQueueId: IdType, workingDirectory: string)
    | FailedSubmissionReceived(packetId: IdType, code: int, message: string)
    | JobCancellationConfirmationReceived(packetId: IdType, moleQueueId: IdType)
    | JobCancellationErrorReceived(packetId: IdType, moleQueueId: IdType, code: int, message: string)
    | LookupJobResponseReceived(packetId: IdType, hash: map<string, Variant>)
    | LookupJobErrorReceived(packetId: IdType, moleQueueId: IdType)
    | JobStateChangeReceived(moleQueueId: IdType, oldState: JobStates.JobState, newState: JobStates.JobState)

  /**
   * What handling a packet amounts to: a signal, an ill-formed reply that is
   * only warned about, a JsonCpp conversion that throws or a member read that
   * asserts, or the transport's invalid-request report carrying the packet's
   * id.
   */
  datatype Reaction =
    | Emitted(signal: ClientSignal)
    | IllFormed
    | Threw
    | InvalidRequest(id: Json)

  /** asLargestUInt narrowed to an IdType; None when JsonCpp throws. */
  function AsId(v: Json): (r: Option<IdType>)
    ensures IsIntegral(v) && 0 <= IntegralValue(v) < IdLimit ==> r == Some(IntegralValue(v))
    ensures v.JInt? && v.i < 0 ==> r.None?
  {
    match Transport.AsLargestUInt(v)
    case Some(n) => Some(ToUnsigned64(n))
    case None => None
  }

  // ---- the queue list ----

  /** The string entries of a program array, in order; other entries are dropped. */
  function StringItems(items: seq<Json>): (names: seq<string>)
    ensures |names| <= |items|
    ensures forall n :: n in names <==> JString(n) in items
  {
    if items == [] then []
    else
      var rest := StringItems(items[..|items| - 1]);
      var last := items[|items| - 1];
      assert items == items[..|items| - 1] + [last];
      if last.JString? then rest + [last.s] else rest
  }

  /** The programs of one queue: a null or non-array entry is an empty list. */
  function ProgramsOf(v: Json): seq<string> {
    if v.JArray? then StringItems(v.items) else []
  }

  /** The queue list read from a result object. */
  function QueueListOf(members: map<string, Json>): (queues: map<string, seq<string>>)
    ensures queues.Keys == members.Keys
  {
    map name | name in members :: ProgramsOf(members[name])
  }

  /** The loop over one queue's program array. */
  method ProgramList(items: seq<Json>) returns (programs: seq<string>)
    ensures programs == StringItems(items)
  {
    programs := [];
    var i := 0;
    while i < |items|
      invariant 0 <= i <= |items|
      invariant programs == StringItems(items[..i])
    {
      assert items[..i + 1][..i] == items[..i];
      if items[i].JString? {
        programs := programs + [items[i].s];
      }
      i := i + 1;
    }
    assert items[..i] == items;
  }

  /** The loop over the queues of a result object. */
  method ReadQueueList(members: map<string, Json>) returns (queues: map<string, seq<string>>)
    ensures queues == QueueListOf(members)
  {
    queues := map[];
    var todo := members.Keys;
    while todo != {}
      invariant todo <= members.Keys
      invariant queues.Keys == members.Keys - todo
      invariant forall name :: name in queues ==> queues[name] == ProgramsOf(members[name])
      decreases todo
    {
      var name :| name in todo;
      var programArray := members[name];
      var programs: seq<string> := [];
      if programArray.JArray? {
        programs := ProgramList(programArray.items);
      }
      queues := queues[name := programs];
      todo := todo - {name};
    }
  }

  // ---- the reply handlers ----

  /** handleListQueuesResult: the result must be an object of queue name to program array. */
  function ListQueuesResult(root: Json): (r: Reaction)
    ensures r.Emitted? ==> r.signal.QueueListReceived? && Get(root, "result").JObject?
  {
    match AsId(Get(root, "id"))
    case None => Threw
    case Some(id) =>
      var result := Get(root, "result");
      if !result.JObject? then IllFormed
      else Emitted(QueueListReceived(id, QueueListOf(result.members)))
  }

  /** handleListQueuesResult, with its loops. */
  method HandleListQueuesResult(root: Json) returns (r: Reaction)
    ensures r == ListQueuesResult(root)
  {
    var id := AsId(Get(root, "id"));
    if id.None? {
      return Threw;
    }
    var result := Get(root, "result");
    if !result.JObject? {
      return IllFormed;
    }
    var queues := ReadQueueList(result.members);
    r := Emitted(QueueListReceived(id.value, queues));
  }

  /**
   * handleSubmitJobResult: an integral moleQueueId and a string
   * workingDirectory; a result that is neither an object nor null makes the
   * member read assert, which is Threw here.
   */
  function SubmitJobResult(root: Json): (r: Reaction)
    ensures AsId(Get(root, "id")).Some? && !MembersReadable(Get(root, "result")) ==> r == Threw
    ensures r.Emitted? ==> IsIntegral(Get(Get(root, "result"), "moleQueueId"))
                           && Get(Get(root, "result"), "workingDirectory").JString?
  {
    match AsId(Get(root, "id"))
    case None => Threw
    case Some(id) =>
      var result := Get(root, "result");
      if !MembersReadable(result) then Threw
      else if !IsIntegral(Get(result, "moleQueueId")) || !Get(result, "workingDirectory").JString? then IllFormed
      else match AsId(Get(result, "moleQueueId"))
        case None => Threw
        case Some(moleQueueId) =>
          Emitted(SuccessfulSubmissionReceived(id, moleQueueId, Get(result, "workingDirectory").s))
  }

  /** handleSubmitJobError: an integral code and a string message; a scalar error asserts (Threw). */
  function SubmitJobError(root: Json): (r: Reaction)
    ensures AsId(Get(root, "id")).Some? && !MembersReadable(Get(root, "error")) ==> r == Threw
    ensures r.Emitted? ==> IsIntegral(Get(Get(root, "error"), "code")) && Get(Get(root, "error"), "message").JString?
  {
    match AsId(Get(root, "id"))
    case None => Threw
    case Some(id) =>
      var error := Get(root, "error");
      if !MembersReadable(error) then Threw
      else if !IsIntegral(Get(error, "code")) || !Get(error, "message").JString? then IllFormed
      else match AsLargestInt(Get(error, "code"))
        case None => Threw
        case Some(code) => Emitted(FailedSubmissionReceived(id, code, Get(error, "message").s))
  }

  /** handleCancelJobResult: the result is the integral moleQueueId. */
  function CancelJobResult(root: Json): (r: Reaction)
    ensures r.Emitted? ==> IsIntegral(Get(root, "result"))
  {
    match AsId(Get(root, "id"))
    case None => Threw
    case Some(id) =>
      var result := Get(root, "result");
      if !IsIntegral(result) then IllFormed
      else match AsId(result)
        case None => Threw
        case Some(moleQueueId) => Emitted(JobCancellationConfirmationReceived(id, moleQueueId))
  }

  /** The cancel and lookup error handlers' check: integral code and data, string message. */
  predicate ErrorWithIdData(error: Json) {
    IsIntegral(Get(error, "code")) && IsIntegral(Get(error, "data")) && Get(error, "message").JString?
  }

  /** handleCancelJobError: the code is read as unsigned, the data is the moleQueueId; a scalar error asserts (Threw). */
  function CancelJobError(root: Json): (r: Reaction)
    ensures AsId(Get(root, "id")).Some? && !MembersReadable(Get(root, "error")) ==> r == Threw
    ensures r.Emitted? ==> ErrorWithIdData(Get(root, "error"))
  {
    match AsId(Get(root, "id"))
    case None => Threw
    case Some(id) =>
      var error := Get(root, "error");
      if !MembersReadable(error) then Threw
      else if !ErrorWithIdData(error) then IllFormed
      else match (Transport.AsLargestUInt(Get(error, "code")), AsId(Get(error, "data")))
        case (Some(code), Some(moleQueueId)) =>
          Emitted(JobCancellationErrorReceived(id, moleQueueId, ToUnsigned64(code), Get(error, "message").s))
        case _ => Threw
  }

  /** handleLookupJobResult: an object result, converted to a variant hash. */
  function LookupJobResult(root: Json): (r: Reaction)
    ensures r.Emitted? ==> Get(root, "result").JObject?
                           && r.signal.LookupJobResponseReceived?
                           && r.signal.hash.Keys == Get(root, "result").members.Keys
  {
    match AsId(Get(root, "id"))
    case None => Threw
    case Some(id) =>
      var result := Get(root, "result");
      if !result.JObject? then IllFormed
      else Emitted(LookupJobResponseReceived(id, JsonToQt(result).entries))
  }

  /** handleLookupJobError: the data is the moleQueueId that was looked up; a scalar error asserts (Threw). */
  function LookupJobError(root: Json): (r: Reaction)
    ensures AsId(Get(root, "id")).Some? && !MembersReadable(Get(root, "error")) ==> r == Threw
    ensures r.Emitted? ==> ErrorWithIdData(Get(root, "error"))
  {
    match AsId(Get(root, "id"))
    case None => Threw
    case Some(id) =>
      var error := Get(root, "error");
      if !MembersReadable(error) then Threw
      else if !ErrorWithIdData(error) then IllFormed
      else match AsId(Get(error, "data"))
        case None => Threw
        case Some(moleQueueId) => Emitted(LookupJobErrorReceived(id, moleQueueId))
  }

  /** handleJobStateChangedNotification: object params, integral moleQueueId, string states. */
  function JobStateChangedNotification(root: Json): (r: Reaction)
    ensures r.Emitted? ==>
      var params := Get(root, "params");
      params.JObject? && IsIntegral(Get(params, "moleQueueId"))
      && Get(params, "oldState").JString? && Get(params, "newState").JString?
  {
    var params := Get(root, "params");
    if !params.JObject? || !IsIntegral(Get(params, "moleQueueId"))
       || !Get(params, "oldState").JString? || !Get(params, "newState").JString? then IllFormed
    else match AsId(Get(params, "moleQueueId"))
      case None => Threw
      case Some(moleQueueId) =>
        Emitted(JobStateChangeReceived(moleQueueId, JobStates.FromName(Get(params, "oldState").s),
                                       JobStates.FromName(Get(params, "newState").s)))
  }

  /**
   * handlePacket: listQueues takes only a result, the three job methods a
   * result or an error, jobStateChanged only a notification; every other
   * pairing is an invalid request.
   */
  function HandlePacket(m: RpcMethod, form: PacketForm, root: Json): (r: Reaction)
    ensures r.InvalidRequest? <==>
      match m
      case ListQueues => form != ResultPacket
      case JobStateChanged => form != NotificationPacket
      case _ => form !in {ResultPacket, ErrorPacket}
  {
    match (m, form)
    case (ListQueues, ResultPacket) => ListQueuesResult(root)
    case (SubmitJob, ResultPacket) => SubmitJobResult(root)
    case (SubmitJob, ErrorPacket) => SubmitJobError(root)
    case (CancelJob, ResultPacket) => CancelJobResult(root)
    case (CancelJob, ErrorPacket) => CancelJobError(root)
    case (LookupJob, ResultPacket) => LookupJobResult(root)
    case (LookupJob, ErrorPacket) => LookupJobError(root)
    case (JobStateChanged, NotificationPacket) => JobStateChangedNotification(root)
    case _ => InvalidRequest(Get(root, "id"))
  }

  // ---- the request builders ----

  /** generateJobRequest's packet: submitJob with the job's hash as params. */
  function JobRequestPacket(hash: map<string, Variant>, packetId: IdType): Json {
    Set(Set(EmptyRequest(packetId), "method", JString("submitJob")), "params", QtToJson(VHash(hash)))
  }

  /** generateJobCancellation's packet: cancelJob with the job's moleQueueId. */
  function CancellationPacket(moleQueueId: IdType, packetId: IdType): Json {
    Set(Set(EmptyRequest(packetId), "method", JString("cancelJob")), "params",
        JObject(map["moleQueueId" := JUInt(moleQueueId)]))
  }

  /** generateLookupJobRequest's packet: lookupJob with the moleQueueId. */
  function LookupPacket(moleQueueId: IdType, packetId: IdType): Json {
    Set(Set(EmptyRequest(packetId), "method", JString("lookupJob")), "params",
        JObject(map["moleQueueId" := JUInt(moleQueueId)]))
  }

  /** generateQueueListRequest's packet: listQueues without params. */
  function QueueListRequestPacket(packetId: IdType): Json {
    Set(EmptyRequest(packetId), "method", JString("listQueues"))
  }

  /** The job request is a strictly valid request that the receiver maps to submitJob. */
  lemma JobRequestIsValid(hash: map<string, Variant>, packetId: IdType)
    ensures ValidateRequest(JobRequestPacket(hash, packetId), true)
    ensures Transport.GuessPacketMethod(JobRequestPacket(hash, packetId), map[]) == Some(Known(SubmitJob))
  {
    var params := QtToJson(VHash(hash));
    BuiltRequestIsValid(packetId, "submitJob", params);
    RequestGuessedByName(packetId, "submitJob", params);
    MapMethodNameRoundTrip(SubmitJob);
  }

  /** The cancellation and lookup requests are strictly valid and map to their methods. */
  lemma IdRequestsAreValid(moleQueueId: IdType, packetId: IdType)
    ensures ValidateRequest(CancellationPacket(moleQueueId, packetId), true)
    ensures Transport.GuessPacketMethod(CancellationPacket(moleQueueId, packetId), map[]) == Some(Known(CancelJob))
    ensures ValidateRequest(LookupPacket(moleQueueId, packetId), true)
    ensures Transport.GuessPacketMethod(LookupPacket(moleQueueId, packetId), map[]) == Some(Known(LookupJob))
  {
    var params := JObject(map["moleQueueId" := JUInt(moleQueueId)]);
    IdRequestIsValid(packetId, "cancelJob", CancelJob, params);
    IdRequestIsValid(packetId, "lookupJob", LookupJob, params);
  }

  /** One request built on the skeleton with a registered method name. */
  lemma IdRequestIsValid(packetId: IdType, name: string, m: RpcMethod, params: Json)
    requires name == WireName(m) && params.JObject?
    ensures ValidateRequest(Set(Set(EmptyRequest(packetId), "method", JString(name)), "params", params), true)
    ensures Transport.GuessPacketMethod(Set(Set(EmptyRequest(packetId), "method", JString(name)), "params", params), map[])
         == Some(Known(m))
  {
    BuiltRequestIsValid(packetId, name, params);
    RequestGuessedByName(packetId, name, params);
    MapMethodNameRoundTrip(m);
  }

  /** The queue-list request is strictly valid and maps to listQueues. */
  lemma QueueListRequestIsValid(packetId: IdType)
    ensures ValidateRequest(QueueListRequestPacket(packetId), true)
    ensures Transport.GuessPacketMethod(QueueListRequestPacket(packetId), map[]) == Some(Known(ListQueues))
  {
    assert Keys(QueueListRequestPacket(packetId)) == {"jsonrpc", "method", "id"};
    MapMethodNameRoundTrip(ListQueues);
  }

  /** A request built on the skeleton is classified by its method name alone. */
  lemma RequestGuessedByName(packetId: IdType, name: string, params: Json)
    ensures Transport.GuessPacketMethod(Set(Set(EmptyRequest(packetId), "method", JString(name)), "params", params), map[])
         == Some(MapMethodNameToInt(name))
  {
  }

  /** The client: the transport's pending-request table, reached through `rpc`. */
  class ClientJsonRpc {
    const rpc: Transport.JsonRpc

    constructor ()
      ensures fresh(rpc) && rpc.pendingRequests == map[]
    {
      rpc := new Transport.JsonRpc();
    }

    /** generateJobRequest: the packet, and the id now awaits a submitJob reply. */
    method GenerateJobRequest(hash: map<string, Variant>, packetId: IdType) returns (packet: Json)
      modifies rpc
      ensures packet == JobRequestPacket(hash, packetId)
      ensures rpc.pendingRequests == old(rpc.pendingRequests)[packetId := SubmitJob]
    {
      packet := JobRequestPacket(hash, packetId);
      rpc.RegisterRequest(packetId, SubmitJob);
    }

    /** generateJobCancellation: the packet, and the id now awaits a cancelJob reply. */
    method GenerateJobCancellation(moleQueueId: IdType, packetId: IdType) returns (packet: Json)
      modifies rpc
      ensures packet == CancellationPacket(moleQueueId, packetId)
      ensures rpc.pendingRequests == old(rpc.pendingRequests)[packetId := CancelJob]
    {
      packet := CancellationPacket(moleQueueId, packetId);
      rpc.RegisterRequest(packetId, CancelJob);
    }

    /** generateLookupJobRequest: the packet, and the id now awaits a lookupJob reply. */
    method GenerateLookupJobRequest(moleQueueId: IdType, packetId: IdType) returns (packet: Json)
      modifies rpc
      ensures packet == LookupPacket(moleQueueId, packetId)
      ensures rpc.pendingRequests == old(rpc.pendingRequests)[packetId := LookupJob]
    {
      packet := LookupPacket(moleQueueId, packetId);
      rpc.RegisterRequest(packetId, LookupJob);
    }

    /** generateQueueListRequest: the packet, and the id now awaits a listQueues reply. */
    method GenerateQueueListRequest(packetId: IdType) returns (packet: Json)
      modifies rpc
      ensures packet == QueueListRequestPacket(packetId)
      ensures rpc.pendingRequests == old(rpc.pendingRequests)[packetId := ListQueues]
    {
      packet := QueueListRequestPacket(packetId);
      rpc.RegisterRequest(packetId, ListQueues);
    }
  }

  /** A reply to a registered request reaches the handler of the method it was registered with. */
  lemma ReplyReachesRegisteredHandler(pending: map<IdType, RpcMethod>, packetId: IdType, m: RpcMethod, result: Json)
    requires result != JNull
    ensures var reply := Set(EmptyResponse(JUInt(packetId)), "result", result);
      Transport.Interpret(pending[packetId := m], reply).events
        == [Transport.HandlePacket(m, ResultPacket, reply)]
  {
    Transport.RegisteredReplyHandledOnce(pending, packetId, m, result);
  }
}
