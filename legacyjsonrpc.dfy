/**
 * The first JSON-RPC implementation (molequeue/jsonrpc.cpp): one class that
 * builds the packets of both sides, classifies and validates incoming
 * packets, and keeps the table of requests awaiting a reply.
 *
 * Its validators and skeleton builders are the ones of JsonRpcEnvelope, and
 * its form guess is JsonRpcTransport.GuessPacketForm: the later transport
 * class kept them line for line. What differs is modelled here: the method
 * names it knows, the unsigned 32-bit id test, the dispatch table, the
 * builders, and two defects (see the as-written members below).
 */
module LegacyJsonRpc {
  import opened Wrappers
  import opened JsonValue
  import opened IdTypes
  import opened RpcMethods
  import opened JsonRpcEnvelope
  import JobStates
  import Transport = JsonRpcTransport
  import Client = ClientJsonRpc
  import Server = ServerJsonRpc

  /** The job request a client fills in (molequeue/jobrequest.h). */
  datatype JobRequest = JobRequest(
    queue: string,
    program: string,
    description: string,
    cleanRemoteFiles: bool,
    retrieveOutput: bool,
    outputDirectory: string,
    cleanLocalWorkingDirectory: bool,
    hideFromQueue: bool,
    popupOnStateChange: bool,
    inputAsPath: string,
    inputAsString: string,
    molequeueId: IdType)

  // ---- builders ----

  /**
   * generateJobRequest's params: the request's options, with the input as a
   * path when one is set and as a string otherwise, never both.
   */
  function JobRequestParams(req: JobRequest): (params: Json)
    ensures params.JObject?
    ensures Has(params, "inputAsString") <==> req.inputAsPath == ""
    ensures Has(params, "inputAsPath") <==> req.inputAsPath != ""
    ensures req.inputAsPath == "" ==> Get(params, "inputAsString") == JString(req.inputAsString)
    ensures req.inputAsPath != "" ==> Get(params, "inputAsPath") == JString(req.inputAsPath)
  {
    var options := map[
      "queue" := JString(req.queue),
      "program" := JString(req.program),
      "description" := JString(req.description),
      "cleanRemoteFiles" := JBool(req.cleanRemoteFiles),
      "retrieveOutput" := JBool(req.retrieveOutput),
      "outputDirectory" := JString(req.outputDirectory),
      "cleanLocalWorkingDirectory" := JBool(req.cleanLocalWorkingDirectory),
      "hideFromQueue" := JBool(req.hideFromQueue),
      "popupOnStateChange" := JBool(req.popupOnStateChange)];
    if req.inputAsPath == "" then JObject(options["inputAsString" := JString(req.inputAsString)])
    else JObject(options["inputAsPath" := JString(req.inputAsPath)])
  }

  function JobRequestPacket(req: JobRequest, packetId: IdType): Json {
    Set(Set(EmptyRequest(packetId), "method", JString("submitJob")), "params", JobRequestParams(req))
  }

  function CancellationPacket(req: JobRequest, packetId: IdType): Json {
    Set(Set(EmptyRequest(packetId), "method", JString("cancelJob")), "params",
        JObject(map["moleQueueJobId" := JUInt(req.molequeueId)]))
  }

  function QueueListRequestPacket(packetId: IdType): Json {
    Set(EmptyRequest(packetId), "method", JString("listQueues"))
  }

  /** generateJobSubmissionConfirmation: both ids and the working directory. */
  function SubmissionConfirmation(moleQueueJobId: IdType, queueJobId: IdType, workingDirectory: string,
                                  packetId: IdType): (p: Json)
    ensures ValidateResponse(p, true)
    ensures Keys(Get(p, "result")) == {"moleQueueJobId", "queueJobId", "workingDirectory"}
  {
    var result := JObject(map["moleQueueJobId" := JUInt(moleQueueJobId), "queueJobId" := JUInt(queueJobId),
                              "workingDirectory" := JString(workingDirectory)]);
    BuiltResponseIsValid(JUInt(packetId), result);
    Set(EmptyResponse(JUInt(packetId)), "result", result)
  }

  /**
   * generateErrorResponse, all four overloads: the code, the message, and
   * the data when given, for a numeric packet id or the id of the request.
   */
  function ErrorResponse(code: int, message: string, data: Option<Json>, packetId: Json): (p: Json)
    ensures IdShapeOk(packetId) ==> ValidateResponse(p, true)
    ensures Get(Get(p, "error"), "code") == JInt(code) && Get(Get(p, "error"), "message") == JString(message)
    ensures Has(Get(p, "error"), "data") <==> data.Some?
  {
    var p := EmptyError(packetId);
    var withCode := Set(p, "error", Set(Get(p, "error"), "code", JInt(code)));
    var withMessage := Set(withCode, "error", Set(Get(withCode, "error"), "message", JString(message)));
    assert "code"[0] != "data"[0];
    assert Keys(Get(withMessage, "error")) == {"code", "message"};
    var r := match data
      case None => withMessage
      case Some(d) => Set(withMessage, "error", Set(Get(withMessage, "error"), "data", d));
    assert Keys(r) == {"jsonrpc", "error", "id"};
    r
  }

  /** generateJobCancellationConfirmation: the result is the moleQueueId. */
  function CancellationConfirmation(moleQueueId: IdType, packetId: IdType): Json {
    Set(EmptyResponse(JUInt(packetId)), "result", JUInt(moleQueueId))
  }

  /** generateJobStateChangeNotification: jobStateChanged with the id and both state names, no id. */
  function StateChangeNotification(moleQueueJobId: IdType, oldState: JobStates.JobState,
                                   newState: JobStates.JobState): (p: Json)
    ensures ValidateNotification(p, true)
  {
    var params := JObject(map["moleQueueJobId" := JUInt(moleQueueJobId),
                              "oldState" := JString(JobStates.Name(oldState)),
                              "newState" := JString(JobStates.Name(newState))]);
    BuiltNotificationIsValid("jobStateChanged", params);
    Set(Set(EmptyNotification(), "method", JString("jobStateChanged")), "params", params)
  }

  /** The queue-list result object: one member per queue, a later queue of the same name replacing an earlier one. */
  function QueueObject(queues: seq<(string, seq<string>)>): (members: map<string, Json>)
    ensures forall q :: q in queues ==> q.0 in members
  {
    if queues == [] then map[]
    else
      var last := queues[|queues| - 1];
      QueueObject(queues[..|queues| - 1])[last.0 := Server.ProgramArray(last.1)]
  }

  /** The queue list as a map: the last queue of each name wins. */
  function QueueMap(queues: seq<(string, seq<string>)>): map<string, seq<string>> {
    if queues == [] then map[]
    else
      var last := queues[|queues| - 1];
      QueueMap(queues[..|queues| - 1])[last.0 := last.1]
  }

  /** generateQueueList's packet for a queue manager's queues (name and program names). */
  function QueueListPacket(queues: seq<(string, seq<string>)>, packetId: IdType): Json {
    Set(EmptyResponse(JUInt(packetId)), "result", JObject(QueueObject(queues)))
  }

  /** generateQueueList: no queue manager gives an empty packet (None). */
  method GenerateQueueList(qmanager: Option<seq<(string, seq<string>)>>, packetId: IdType) returns (packet: Option<Json>)
    ensures qmanager.None? ==> packet.None?
    ensures qmanager.Some? ==> packet == Some(QueueListPacket(qmanager.value, packetId))
  {
    if qmanager.None? {
      return None;
    }
    var queues := qmanager.value;
    var resultObject: map<string, Json> := map[];
    var i := 0;
    while i < |queues|
      invariant 0 <= i <= |queues|
      invariant resultObject == QueueObject(queues[..i])
    {
      assert queues[..i + 1][..i] == queues[..i];
      resultObject := resultObject[queues[i].0 := Server.ProgramArray(queues[i].1)];
      i := i + 1;
    }
    assert queues[..i] == queues;
    packet := Some(QueueListPacket(queues, packetId));
  }

  // ---- classification ----

  /** The method names this class knows: lookupJob is not among them. */
  function MethodNameToCode(name: string): (c: MethodCode)
    ensures c == (if name == "lookupJob" then UnrecognizedMethod else MapMethodNameToInt(name))
    ensures c != Known(LookupJob)
  {
    if name == "listQueues" then Known(ListQueues)
    else if name == "submitJob" then Known(SubmitJob)
    else if name == "cancelJob" then Known(CancelJob)
    else if name == "jobStateChanged" then Known(JobStateChanged)
    else UnrecognizedMethod
  }

  const UIntLimit: int := 0x1_0000_0000

  /** Json::Value::isUInt: an integer that fits an unsigned 32-bit value. */
  predicate IsUInt(v: Json) {
    IsIntegral(v) && 0 <= IntegralValue(v) < UIntLimit
  }

  /**
   * guessPacketMethod: as in the transport class, except that a reply's id
   * must pass isUInt to be looked up.
   */
  function GuessPacketMethod(root: Json, pending: map<IdType, RpcMethod>): (c: MethodCode)
    ensures Get(root, "method") == JNull && Get(root, "id") != JNull && !IsUInt(Get(root, "id")) ==>
      c == IgnoreMethod
    ensures Get(root, "method") == JNull && IsUInt(Get(root, "id")) ==>
      c == (if IntegralValue(Get(root, "id")) in pending then Known(pending[IntegralValue(Get(root, "id"))])
            else IgnoreMethod)
  {
    if !root.JObject? then InvalidMethod
    else
      var methodValue := Get(root, "method");
      if methodValue != JNull then
        (if !methodValue.JString? then InvalidMethod else MethodNameToCode(methodValue.s))
      else
        var idValue := Get(root, "id");
        if idValue != JNull then
          if !IsUInt(idValue) then IgnoreMethod
          else if IntegralValue(idValue) in pending then Known(pending[IntegralValue(idValue)])
          else IgnoreMethod
        else InvalidMethod
  }

  /** Each request builder's packet names its method, so a reply resolves to what was registered. */
  lemma BuiltRequestsResolve(req: JobRequest, packetId: IdType)
    ensures GuessPacketMethod(JobRequestPacket(req, packetId), map[]) == Known(SubmitJob)
    ensures GuessPacketMethod(CancellationPacket(req, packetId), map[]) == Known(CancelJob)
    ensures GuessPacketMethod(QueueListRequestPacket(packetId), map[]) == Known(ListQueues)
  {
    KnownNames();
    RequestResolvesByName(packetId, "submitJob", JobRequestParams(req));
    RequestResolvesByName(packetId, "cancelJob", JObject(map["moleQueueJobId" := JUInt(req.molequeueId)]));
    ListRequestResolvesByName(packetId, "listQueues");
  }

  /** The names this class sends are the ones it knows. */
  lemma KnownNames()
    ensures MethodNameToCode("submitJob") == Known(SubmitJob)
    ensures MethodNameToCode("cancelJob") == Known(CancelJob)
    ensures MethodNameToCode("listQueues") == Known(ListQueues)
  {
  }

  /** A request built on the skeleton is classified by its method name. */
  lemma RequestResolvesByName(packetId: IdType, name: string, params: Json)
    ensures GuessPacketMethod(Set(Set(EmptyRequest(packetId), "method", JString(name)), "params", params), map[])
         == MethodNameToCode(name)
  {
    assert "method"[0] != "params"[0];
    var p := Set(Set(EmptyRequest(packetId), "method", JString(name)), "params", params);
    assert Get(p, "method") == JString(name);
  }

  /** A request skeleton given only a method name is classified by that name. */
  lemma ListRequestResolvesByName(packetId: IdType, name: string)
    ensures GuessPacketMethod(Set(EmptyRequest(packetId), "method", JString(name)), map[]) == MethodNameToCode(name)
  {
    assert Get(Set(EmptyRequest(packetId), "method", JString(name)), "method") == JString(name);
  }

  // ---- interpretation ----

  /** The calls interpretIncomingJsonRpc makes. */
  datatype Event =
    | UnparsablePacket
    | InvalidRequest(id: Json)                        // handleInvalidRequest, handleUnrecognizedRequest
    | Dispatched(m: RpcMethod, form: PacketForm, data: Json)  // the per-method handler

  /**
   * The dispatch table: listQueues, submitJob and cancelJob take requests,
   * results and errors; jobStateChanged only notifications; anything else is
   * an invalid request.
   */
  function Dispatch(m: RpcMethod, form: PacketForm, data: Json): (e: Event)
    ensures e.Dispatched? <==>
      (m in {ListQueues, SubmitJob, CancelJob} && form in {RequestPacket, ResultPacket, ErrorPacket})
      || (m == JobStateChanged && form == NotificationPacket)
  {
    match m
    case ListQueues | SubmitJob | CancelJob =>
      if form in {RequestPacket, ResultPacket, ErrorPacket} then Dispatched(m, form, data)
      else InvalidRequest(Get(data, "id"))
    case JobStateChanged =>
      if form == NotificationPacket then Dispatched(m, form, data) else InvalidRequest(Get(data, "id"))
    case LookupJob => InvalidRequest(Get(data, "id"))
  }

  /** The reports made, the pending table after them, and whether JsonCpp threw or asserted on the way. */
  datatype Outcome = Outcome(events: seq<Event>, pending: map<IdType, RpcMethod>, thrown: bool)

  /** Everything after the object test: method dispatch, then the reply's id leaves the table. */
  function Classified(pending: map<IdType, RpcMethod>, data: Json): (o: Outcome)
    ensures |o.events| <= 1
  {
    var form := Transport.ValidatedForm(data);
    var calls := match GuessPacketMethod(data, pending)
      case IgnoreMethod => []
      case InvalidMethod => [InvalidRequest(Get(data, "id"))]
      case UnrecognizedMethod => [InvalidRequest(Get(data, "id"))]
      case Known(m) => [Dispatch(m, form, data)];
    if form == ResultPacket || form == ErrorPacket then
      match Transport.AsLargestUInt(Get(data, "id"))
      case Some(id) => Outcome(calls, pending - {ToUnsigned64(id)}, false)
      case None => Outcome(calls, pending, true)
    else Outcome(calls, pending, false)
  }

  /**
   * interpretIncomingJsonRpc on one packet AS WRITTEN: null is reported, and
   * then classified anyway, which reports it a second time (there is no
   * return after the first report). Any other value that is not an object
   * fails JsonCpp's assertion when handleInvalidRequest reads its `id`.
   */
  function InterpretSingleAsWritten(pending: map<IdType, RpcMethod>, data: Json): Outcome
    requires !data.JArray?
  {
    var rest := Classified(pending, data);
    if !data.JObject? then
      if !MembersReadable(data) then Outcome([], pending, true)
      else Outcome([InvalidRequest(Get(data, "id"))] + rest.events, rest.pending, rest.thrown)
    else rest
  }

  /**
   * interpretIncomingJsonRpc on one packet, with the evidently intended
   * return after the report, which carries a null id for every value that is
   * not an object (as the transport revision's handleInvalidRequest does).
   */
  function InterpretSingle(pending: map<IdType, RpcMethod>, data: Json): (o: Outcome)
    requires !data.JArray?
    ensures !data.JObject? ==> o == Outcome([InvalidRequest(JNull)], pending, false)
  {
    if !data.JObject? then Outcome([InvalidRequest(JNull)], pending, false)
    else Classified(pending, data)
  }

  /** The JSON value null is reported twice as written, once when corrected. */
  lemma NonObjectReportedTwice(pending: map<IdType, RpcMethod>, data: Json)
    requires data == JNull
    ensures InterpretSingleAsWritten(pending, data).events == [InvalidRequest(JNull), InvalidRequest(JNull)]
    ensures InterpretSingle(pending, data).events == [InvalidRequest(JNull)]
  {
  }

  /**
   * Any other value that is not an object stops the interpretation as
   * written, with no report; corrected, it is reported once.
   */
  lemma ScalarAssertsAsWritten(pending: map<IdType, RpcMethod>, data: Json)
    requires !data.JObject? && !data.JArray? && !data.JNull?
    ensures InterpretSingleAsWritten(pending, data) == Outcome([], pending, true)
    ensures InterpretSingle(pending, data) == Outcome([InvalidRequest(JNull)], pending, false)
  {
  }

  /** The two agree on every object. */
  lemma AgreeOnObjects(pending: map<IdType, RpcMethod>, data: Json)
    requires data.JObject?
    ensures InterpretSingleAsWritten(pending, data) == InterpretSingle(pending, data)
  {
  }

  /** interpretIncomingJsonRpc: a batch is interpreted element by element until a conversion throws. */
  function Interpret(pending: map<IdType, RpcMethod>, data: Json): Outcome
    decreases data, 1
  {
    if data.JArray? then InterpretBatch(pending, data.items) else InterpretSingle(pending, data)
  }

  function InterpretBatch(pending: map<IdType, RpcMethod>, items: seq<Json>): Outcome
    decreases items, 0
  {
    if items == [] then Outcome([], pending, false)
    else
      var before := InterpretBatch(pending, items[..|items| - 1]);
      if before.thrown then before
      else
        var last := Interpret(before.pending, items[|items| - 1]);
        Outcome(before.events + last.events, last.pending, last.thrown)
  }

  lemma {:induction false} InterpretBatchStopped(pending: map<IdType, RpcMethod>, items: seq<Json>, i: nat)
    requires i <= |items| && InterpretBatch(pending, items[..i]).thrown
    ensures InterpretBatch(pending, items) == InterpretBatch(pending, items[..i])
    decreases |items| - i
  {
    if i < |items| {
      assert items[..i + 1][..i] == items[..i];
      InterpretBatchStopped(pending, items, i + 1);
    } else {
      assert items[..i] == items;
    }
  }

  /**
   * interpretIncomingPacket AS WRITTEN: bytes that do not parse are reported,
   * and then the root the reader left behind is interpreted too. `partial`
   * is that root: null when the reader failed before building a value, the
   * part built so far otherwise (the bytes `{` leave an empty object).
   */
  function InterpretPacketAsWritten(pending: map<IdType, RpcMethod>, parsed: Option<Json>, partial: Json): (events: seq<Event>)
    requires !partial.JArray?
  {
    match parsed
    case None => [UnparsablePacket] + InterpretSingleAsWritten(pending, partial).events
    case Some(root) =>
      if root.JArray? then InterpretBatch(pending, root.items).events
      else InterpretSingleAsWritten(pending, root).events
  }

  /** interpretIncomingPacket, with the evidently intended return after an unparsable packet. */
  function InterpretPacket(pending: map<IdType, RpcMethod>, parsed: Option<Json>): (o: Outcome)
    ensures parsed.None? ==> o == Outcome([UnparsablePacket], pending, false)
  {
    match parsed
    case None => Outcome([UnparsablePacket], pending, false)
    case Some(root) => Interpret(pending, root)
  }

  /**
   * Bytes the reader refuses before building a value (`x`, say) leave a null
   * root: three reports as written, one when corrected.
   */
  lemma UnparsableReportedThrice(pending: map<IdType, RpcMethod>)
    ensures InterpretPacketAsWritten(pending, None, JNull)
         == [UnparsablePacket, InvalidRequest(JNull), InvalidRequest(JNull)]
    ensures InterpretPacket(pending, None).events == [UnparsablePacket]
  {
  }

  /** The bytes `{` leave an empty object: reported as unparsable and then once as an invalid request. */
  lemma UnparsableObjectReportedTwice(pending: map<IdType, RpcMethod>)
    ensures InterpretPacketAsWritten(pending, None, JObject(map[]))
         == [UnparsablePacket, InvalidRequest(JNull)]
    ensures InterpretPacket(pending, None).events == [UnparsablePacket]
  {
    assert Get(JObject(map[]), "id") == JNull;
  }

  // ---- the queue-list handler ----

  datatype ListReaction<T> = ListEmitted(packetId: IdType, queues: T) | ListIllFormed | ListThrew

  /** The entries the as-written loop keeps: one unnamed, empty entry per element whose programs are null. */
  function NullProgramEntries(items: seq<Json>): (entries: seq<(string, seq<string>)>)
    ensures forall e :: e in entries ==> e == ("", [])
  {
    if items == [] then []
    else
      var rest := NullProgramEntries(items[..|items| - 1]);
      if Get(items[|items| - 1], "programs") == JNull then rest + [("", [])] else rest
  }

  /**
   * handleListQueuesResult AS WRITTEN: the result must be an ARRAY (while
   * generateQueueList writes an object), array elements have no member
   * name, and the braceless `if` makes every element `continue` after at
   * most an empty entry, so no program is ever read. An element that is
   * neither an object nor null fails JsonCpp's assertion when its
   * `programs` member is read.
   */
  function ListQueuesResultAsWritten(root: Json): ListReaction<seq<(string, seq<string>)>> {
    match Client.AsId(Get(root, "id"))
    case None => ListThrew
    case Some(id) =>
      var result := Get(root, "result");
      if !result.JArray? then ListIllFormed
      else if exists i :: 0 <= i < |result.items| && !MembersReadable(result.items[i]) then ListThrew
      else ListEmitted(id, NullProgramEntries(result.items))
  }

  /** As written, a queue object that does carry programs is dropped from the list altogether. */
  lemma ProgramsNeverRead(packetId: IdType, programs: seq<string>)
    ensures var root := JObject(map["id" := JUInt(packetId),
                                    "result" := JArray([JObject(map["programs" := JArray(seq(|programs|, i requires 0 <= i < |programs| => JString(programs[i])))])])]);
      ListQueuesResultAsWritten(root) == ListEmitted(packetId, [])
  {
    var item := JObject(map["programs" := JArray(seq(|programs|, i requires 0 <= i < |programs| => JString(programs[i])))]);
    assert Get(item, "programs") != JNull;
    assert NullProgramEntries([item]) == [];
  }

  /** As written, the handler never accepts the queue list this same class generates. */
  lemma AsWrittenRejectsGeneratedList(queues: seq<(string, seq<string>)>, packetId: IdType)
    ensures ListQueuesResultAsWritten(QueueListPacket(queues, packetId)) == ListIllFormed
  {
  }

  /** As written, whatever array arrives, no queue is named and no program is reported. */
  lemma AsWrittenReportsNoPrograms(root: Json)
    ensures var r := ListQueuesResultAsWritten(root);
      r.ListEmitted? ==> forall e :: e in r.queues ==> e.0 == "" && e.1 == []
  {
  }

  /**
   * handleListQueuesResult as evidently intended (the form the later
   * client class took): an object of queue name to program array.
   */
  function ListQueuesResult(root: Json): (r: ListReaction<map<string, seq<string>>>)
    ensures r.ListEmitted? ==> Get(root, "result").JObject? && r.queues.Keys == Get(root, "result").members.Keys
  {
    match Client.AsId(Get(root, "id"))
    case None => ListThrew
    case Some(id) =>
      var result := Get(root, "result");
      if !result.JObject? then ListIllFormed
      else ListEmitted(id, Client.QueueListOf(result.members))
  }

  lemma {:induction false} QueueObjectRead(queues: seq<(string, seq<string>)>)
    ensures Client.QueueListOf(QueueObject(queues)) == QueueMap(queues)
  {
    if queues != [] {
      var last := queues[|queues| - 1];
      QueueObjectRead(queues[..|queues| - 1]);
      Server.ProgramArrayRoundTrip(last.1);
    }
  }

  /** Corrected, the handler reads back exactly the queues generateQueueList wrote. */
  lemma QueueListRoundTrip(queues: seq<(string, seq<string>)>, packetId: IdType)
    ensures ListQueuesResult(QueueListPacket(queues, packetId)) == ListEmitted(packetId, QueueMap(queues))
  {
    QueueObjectRead(queues);
  }

  // ---- the class ----

  class JsonRpc {
    /** Packet id of each request sent and not yet answered, with its method. */
    var pendingRequests: map<IdType, RpcMethod>

    constructor ()
      ensures pendingRequests == map[]
    {
      pendingRequests := map[];
    }

    /** generateJobRequest: the packet, and the id now awaits a submitJob reply. */
    method GenerateJobRequest(req: JobRequest, packetId: IdType) returns (packet: Json)
      modifies this
      ensures packet == JobRequestPacket(req, packetId)
      ensures pendingRequests == old(pendingRequests)[packetId := SubmitJob]
    {
      packet := JobRequestPacket(req, packetId);
      pendingRequests := pendingRequests[packetId := SubmitJob];
    }

    /** generateJobCancellation: the packet, and the id now awaits a cancelJob reply. */
    method GenerateJobCancellation(req: JobRequest, packetId: IdType) returns (packet: Json)
      modifies this
      ensures packet == CancellationPacket(req, packetId)
      ensures pendingRequests == old(pendingRequests)[packetId := CancelJob]
    {
      packet := CancellationPacket(req, packetId);
      pendingRequests := pendingRequests[packetId := CancelJob];
    }

    /** generateQueueListRequest: the packet, and the id now awaits a listQueues reply. */
    method GenerateQueueListRequest(packetId: IdType) returns (packet: Json)
      modifies this
      ensures packet == QueueListRequestPacket(packetId)
      ensures pendingRequests == old(pendingRequests)[packetId := ListQueues]
    {
      packet := QueueListRequestPacket(packetId);
      pendingRequests := pendingRequests[packetId := ListQueues];
    }

    /** interpretIncomingJsonRpc (corrected). */
    method InterpretIncomingJsonRpc(data: Json) returns (events: seq<Event>, thrown: bool)
      modifies this
      ensures Outcome(events, pendingRequests, thrown) == Interpret(old(pendingRequests), data)
      decreases data
    {
      if data.JArray? {
        events, thrown := [], false;
        var i := 0;
        while i < |data.items| && !thrown
          invariant 0 <= i <= |data.items|
          invariant Outcome(events, pendingRequests, thrown) == InterpretBatch(old(pendingRequests), data.items[..i])
        {
          assert data.items[..i + 1][..i] == data.items[..i];
          var more;
          more, thrown := InterpretIncomingJsonRpc(data.items[i]);
          events := events + more;
          i := i + 1;
        }
        if thrown {
          InterpretBatchStopped(old(pendingRequests), data.items, i);
        } else {
          assert data.items[..i] == data.items;
        }
        return;
      }
      thrown := false;
      if !data.JObject? {
        events := [InvalidRequest(JNull)];
        return;
      }
      var form := Transport.ValidatedForm(data);
      var code := GuessPacketMethod(data, pendingRequests);
      match code {
        case IgnoreMethod => events := [];
        case InvalidMethod => events := [InvalidRequest(Get(data, "id"))];
        case UnrecognizedMethod => events := [InvalidRequest(Get(data, "id"))];
        case Known(m) => events := [Dispatch(m, form, data)];
      }
      if form == ResultPacket || form == ErrorPacket {
        var id := Transport.AsLargestUInt(Get(data, "id"));
        if id.Some? {
          pendingRequests := pendingRequests - {ToUnsigned64(id.value)};
        } else {
          thrown := true;
        }
      }
    }

    /** interpretIncomingPacket (corrected); `parsed` is None when the JSON reader fails. */
    method InterpretIncomingPacket(parsed: Option<Json>) returns (events: seq<Event>, thrown: bool)
      modifies this
      ensures Outcome(events, pendingRequests, thrown) == InterpretPacket(old(pendingRequests), parsed)
    {
      if parsed.None? {
        events, thrown := [UnparsablePacket], false;
        return;
      }
      events, thrown := InterpretIncomingJsonRpc(parsed.value);
    }
  }

  /** A registered request's reply is dispatched to its method once and then leaves the table. */
  lemma RegisteredReplyHandledOnce(pending: map<IdType, RpcMethod>, packetId: IdType, m: RpcMethod, result: Json)
    requires packetId < UIntLimit && result != JNull
    ensures var reply := Set(EmptyResponse(JUInt(packetId)), "result", result);
      var o := Interpret(pending[packetId := m], reply);
      o.events == [Dispatch(m, ResultPacket, reply)] && o.pending == pending[packetId := m] - {packetId}
  {
    var p := Set(EmptyResponse(JUInt(packetId)), "result", result);
    assert Keys(p) == {"jsonrpc", "result", "id"};
    assert Transport.ValidatedForm(p) == ResultPacket;
  }

  /** A reply whose id does not fit 32 bits is ignored even when the table holds it. */
  lemma WideReplyIdIgnored(pending: map<IdType, RpcMethod>, packetId: IdType, m: RpcMethod, result: Json)
    requires packetId >= UIntLimit
    ensures GuessPacketMethod(Set(EmptyResponse(JUInt(packetId)), "result", result), pending[packetId := m]) == IgnoreMethod
  {
  }
}
