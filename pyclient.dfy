/**
 * The request/response correlation engine of the Python client
 * (python/molequeue/client.py).
 *
 * A Client hands out packet ids from a counter, registers each id with an
 * empty response slot before the request goes out, fills the slot when a
 * reply with that id arrives, and fans notifications out to its callbacks
 * in registration order. The socket, the IO-loop thread, the lock and the
 * condition variable are not modelled: each thread action is a method, and
 * the replies that arrive while a caller waits are an explicit input.
 */
module PyClient {
  import opened Wrappers
  import opened JsonValue
  import TextOps

  /** A Python callable registered for notifications (identified, not executed). */
  datatype Callback = Callback(name: string)

  /** One invocation `callback(msg)` made by the client. */
  datatype Invocation = Invocation(callback: Callback, msg: Json)

  /** The exceptions `submit_job_request` can end with. */
  datatype PyException =
    | NameError(name: string)
    | KeyError(key: string)
    | TypeError
    | JobRequestException(packetId: Json, code: Json, message: Json)

  /** How `_wait_for_response` ends: the stored reply, or still blocked when no more replies arrive. */
  datatype WaitOutcome = Response(msg: Json) | StillWaiting | MissingKey

  /** Python's `v[k]` on a decoded JSON value. */
  function Index(v: Json, k: string): (r: Result<Json, PyException>)
    ensures r.Ok? <==> Has(v, k)
    ensures r.Ok? ==> r.value == v.members[k]
  {
    if !v.JObject? then Err(TypeError)
    else if k in v.members then Ok(v.members[k])
    else Err(KeyError(k))
  }

  /**
   * Python's `'id' in v` on a decoded JSON value: a key test on a dict, an
   * element test on a list, a substring test on a string; a number, a
   * boolean or None cannot be searched and raises TypeError.
   */
  function ContainsId(v: Json): (r: Result<bool, PyException>)
    ensures v.JObject? ==> r == Ok(Has(v, "id"))
    ensures r.Err? <==> !(v.JObject? || v.JArray? || v.JString?)
  {
    match v
    case JObject(m) => Ok("id" in m)
    case JArray(items) => Ok(JString("id") in items)
    case JString(s) => Ok(TextOps.Contains(s, "id"))
    case _ => Err(TypeError)
  }

  /**
   * A decoded JSON value as a key of a Python dict. Numbers that compare
   * equal are one key whatever their type (1, 1.0 and True hash alike), a
   * string is its own key, None is one key; a list or a dict is unhashable.
   */
  datatype PyKey = NumKey(r: real) | StrKey(s: string) | NoneKey

  /** The dict key a value stands for; None for an unhashable value, which makes `in` raise TypeError. */
  function KeyOf(v: Json): (k: Option<PyKey>)
    ensures k.None? <==> v.JArray? || v.JObject?
    ensures IsNumeric(v) ==> k == Some(NumKey(ToReal(v)))
  {
    match v
    case JNull => Some(NoneKey)
    case JBool(b) => Some(NumKey(if b then 1.0 else 0.0))
    case JInt(i) => Some(NumKey(i as real))
    case JUInt(u) => Some(NumKey(u as real))
    case JReal(r) => Some(NumKey(r))
    case JString(t) => Some(StrKey(t))
    case _ => None
  }

  /** The key under which `_send_request` registers an integer packet id. */
  function IdKey(n: int): PyKey {
    NumKey(n as real)
  }

  /** A reply id of 1, 1.0 or True, or any integer in either JSON integer kind, finds the same slot. */
  lemma NumbersShareKeys(n: int)
    ensures KeyOf(JInt(n)) == KeyOf(JReal(n as real)) == Some(IdKey(n))
    ensures n >= 0 ==> KeyOf(JUInt(n)) == Some(IdKey(n))
    ensures KeyOf(JBool(true)) == Some(IdKey(1)) && KeyOf(JBool(false)) == Some(IdKey(0))
  {
  }

  /** Different integer packet ids, and a number and a string, are different keys. */
  lemma DistinctIdsDistinctKeys(m: int, n: int, t: string)
    requires m != n
    ensures IdKey(m) != IdKey(n)
    ensures KeyOf(JString(t)) != Some(IdKey(m))
  {
  }

  /** _on_recv raises: the `in` test fails, it succeeds on a list or string, which `['id']` cannot index, or the id cannot be a dict key. */
  predicate RecvRaises(frame: Json) {
    ContainsId(frame).Err? || (ContainsId(frame) == Ok(true) && !frame.JObject?) ||
    (Has(frame, "id") && KeyOf(frame.members["id"]).None?)
  }

  /** The JSON-RPC request object that `JsonRpc.generate_request` is taken to build. */
  function RequestFrame(id: int, methodName: string, params: Json): (f: Json)
    ensures Get(f, "id") == JInt(id) && Get(f, "method") == JString(methodName)
  {
    JObject(map["jsonrpc" := JString("2.0"), "method" := JString(methodName),
                "params" := params, "id" := JInt(id)])
  }

  /**
   * The table after `_on_response(id, msg)`: the slot of a registered key
   * that the id equals as a dict key is filled; an unhashable id raises
   * before the table is touched.
   */
  function Filled(table: map<PyKey, Option<Json>>, id: Json, msg: Json): (t: map<PyKey, Option<Json>>)
    ensures t.Keys == table.Keys
    ensures KeyOf(id).Some? && KeyOf(id).value in table ==> t[KeyOf(id).value] == Some(msg)
    ensures forall other :: other in table && Some(other) != KeyOf(id) ==> t[other] == table[other]
  {
    match KeyOf(id)
    case Some(k) => if k in table then table[k := Some(msg)] else table
    case None => table
  }

  /** The table after a run of replies has been delivered, one `_on_response` each. */
  function FilledAll(table: map<PyKey, Option<Json>>, replies: seq<(Json, Json)>): (t: map<PyKey, Option<Json>>)
    ensures t.Keys == table.Keys
    decreases |replies|
  {
    if replies == [] then table
    else FilledAll(Filled(table, replies[0].0, replies[0].1), replies[1..])
  }

  /**
   * The end of `submit_job_request` as written: an error reply refers to the
   * undefined name `reponse`, so it raises NameError; otherwise the result's
   * moleQueueId is returned.
   */
  function SubmitReplyAsWritten(response: Json): (r: Result<Json, PyException>)
  {
    if Has(response, "error") then Err(NameError("reponse"))
    else
      match Index(response, "result")
      case Err(e) => Err(e)
      case Ok(result) => Index(result, "moleQueueId")
  }

  /** Every error reply makes the as-written code raise NameError instead of JobRequestException. */
  lemma ErrorReplyRaisesNameError(response: Json)
    requires Has(response, "error")
    ensures SubmitReplyAsWritten(response) == Err(NameError("reponse"))
    ensures !SubmitReplyAsWritten(response).error.JobRequestException?
  {
  }

  /**
   * The end of `submit_job_request` as intended: an error reply raises
   * JobRequestException with the reply's packet id and the error's code and
   * message; otherwise the result's moleQueueId is returned. The packet id is
   * the response's own `id`: a JSON-RPC 2.0 error object has no `id` member,
   * so reading it there would raise KeyError (TypoFixAloneRaisesKeyError).
   */
  function SubmitReply(response: Json): (r: Result<Json, PyException>)
    ensures Has(response, "error") && Has(Get(response, "error"), "code") && Has(Get(response, "error"), "message")
            ==> r == Err(JobRequestException(Get(response, "id"), Get(Get(response, "error"), "code"),
                                             Get(Get(response, "error"), "message")))
    ensures r.Ok? ==> !Has(response, "error") && Has(response, "result")
                      && r.value == Get(Get(response, "result"), "moleQueueId")
  {
    if Has(response, "error") then
      var error := response.members["error"];
      match Index(error, "code")
      case Err(e) => Err(e)
      case Ok(code) =>
        match Index(error, "message")
        case Err(e) => Err(e)
        case Ok(message) => Err(JobRequestException(Get(response, "id"), code, message))
    else
      match Index(response, "result")
      case Err(e) => Err(e)
      case Ok(result) => Index(result, "moleQueueId")
  }

  /**
   * The error branch with only the misspelt name put right: the packet id is
   * read from the error object, as line 136 of client.py writes it.
   */
  function ErrorBranchTypoFixed(error: Json): (r: PyException)
    ensures !Has(error, "id") && error.JObject? ==> r == KeyError("id")
  {
    match Index(error, "id")
    case Err(e) => e
    case Ok(id) =>
      match Index(error, "code")
      case Err(e) => e
      case Ok(code) =>
        match Index(error, "message")
        case Err(e) => e
        case Ok(message) => JobRequestException(id, code, message)
  }

  /**
   * A JSON-RPC 2.0 error object holds only code, message and data (the id is
   * a member of the response), so with the misspelling alone put right, every
   * such error still raises KeyError and never JobRequestException; hence
   * SubmitReply reads the response's own id.
   */
  lemma TypoFixAloneRaisesKeyError(code: Json, message: Json)
    ensures var error := JObject(map["code" := code, "message" := message]);
      ErrorBranchTypoFixed(error) == KeyError("id") && !ErrorBranchTypoFixed(error).JobRequestException?
  {
    var error := JObject(map["code" := code, "message" := message]);
    assert "id" !in error.members;
  }

  /** Both versions agree on every reply without an error member. */
  lemma SubmitReplyAgreesWithoutError(response: Json)
    requires !Has(response, "error")
    ensures SubmitReply(response) == SubmitReplyAsWritten(response)
  {
  }

  class Client {
    /** The last packet id handed out. */
    var currentPacketId: int
    /** Packet id (as a dict key) to response slot; None until the reply arrives. */
    var requestResponseMap: map<PyKey, Option<Json>>
    var notificationCallbacks: seq<Callback>
    /** The frames written to the socket so far. */
    var sent: seq<Json>

    ghost predicate Valid()
      reads this
    {
      currentPacketId >= 0
    }

    constructor ()
      ensures Valid()
      ensures currentPacketId == 0 && requestResponseMap == map[]
      ensures notificationCallbacks == [] && sent == []
    {
      currentPacketId := 0;
      requestResponseMap := map[];
      notificationCallbacks := [];
      sent := [];
    }

    /** register_notification_callback: callbacks are kept in registration order, duplicates included. */
    method RegisterNotificationCallback(callback: Callback)
      modifies this`notificationCallbacks
      ensures notificationCallbacks == old(notificationCallbacks) + [callback]
    {
      notificationCallbacks := notificationCallbacks + [callback];
    }

    /** _next_packet_id: the counter goes up by one and the new value is the id. */
    method NextPacketId() returns (id: int)
      requires Valid()
      modifies this`currentPacketId
      ensures Valid()
      ensures id == old(currentPacketId) + 1 && currentPacketId == id
      ensures id >= 1
    {
      currentPacketId := currentPacketId + 1;
      id := currentPacketId;
    }

    /** _send_request: the id gets an empty slot before the frame is sent. */
    method SendRequest(packetId: int, frame: Json)
      modifies this`requestResponseMap, this`sent
      ensures requestResponseMap == old(requestResponseMap)[IdKey(packetId) := Option.None]
      ensures sent == old(sent) + [frame]
    {
      requestResponseMap := requestResponseMap[IdKey(packetId) := Option.None];
      sent := sent + [frame];
    }

    /**
     * _on_response: the `in` test raises TypeError for an unhashable id;
     * otherwise a reply is stored only under a key that is already registered.
     */
    method OnResponse(packetId: Json, msg: Json) returns (raised: Option<PyException>)
      modifies this`requestResponseMap
      ensures raised.Some? <==> KeyOf(packetId).None?
      ensures raised.Some? ==> raised == Some(TypeError)
      ensures requestResponseMap == Filled(old(requestResponseMap), packetId, msg)
    {
      var key := KeyOf(packetId);
      if key.None? {
        return Some(TypeError);
      }
      if key.value in requestResponseMap {
        requestResponseMap := requestResponseMap[key.value := Some(msg)];
      }
      raised := None;
    }

    /** _on_notification: every callback is called once with the message, in registration order. */
    method OnNotification(msg: Json) returns (calls: seq<Invocation>)
      ensures |calls| == |notificationCallbacks|
      ensures forall i :: 0 <= i < |calls| ==> calls[i] == Invocation(notificationCallbacks[i], msg)
    {
      calls := [];
      var i := 0;
      while i < |notificationCallbacks|
        invariant 0 <= i <= |notificationCallbacks|
        invariant |calls| == i
        invariant forall j :: 0 <= j < i ==> calls[j] == Invocation(notificationCallbacks[j], msg)
      {
        calls := calls + [Invocation(notificationCallbacks[i], msg)];
        i := i + 1;
      }
    }

    /**
     * _on_recv: a frame with an `id` member is a reply, routed to
     * _on_response under that id; every other frame is a notification. A
     * frame that `in` cannot search, one that holds "id" without being a
     * dictionary, or one whose id is a list or a dict raises TypeError, and
     * nothing is called.
     */
    method OnRecv(frame: Json) returns (calls: seq<Invocation>, raised: Option<PyException>)
      modifies this`requestResponseMap
      ensures raised.Some? <==> RecvRaises(frame)
      ensures raised.Some? ==> raised == Some(TypeError) && calls == [] && requestResponseMap == old(requestResponseMap)
      ensures Has(frame, "id") ==>
        calls == [] && requestResponseMap == Filled(old(requestResponseMap), frame.members["id"], frame)
      ensures Has(frame, "id") && KeyOf(frame.members["id"]).Some? && KeyOf(frame.members["id"]).value in old(requestResponseMap) ==>
        requestResponseMap[KeyOf(frame.members["id"]).value] == Some(frame)
      ensures ContainsId(frame) == Ok(false) ==>
        requestResponseMap == old(requestResponseMap) && |calls| == |notificationCallbacks| &&
        forall i :: 0 <= i < |calls| ==> calls[i] == Invocation(notificationCallbacks[i], frame)
    {
      var isReply := ContainsId(frame);
      if isReply.Err? {
        return [], Some(isReply.error);
      }
      if isReply.value {
        var id := Index(frame, "id");
        if id.Err? {
          return [], Some(id.error);
        }
        raised := OnResponse(id.value, frame);
        calls := [];
      } else {
        calls := OnNotification(frame);
        raised := None;
      }
    }

    /**
     * _wait_for_response: while the slot is empty, the replies in `arrivals`
     * are delivered one at a time (each one an `_on_response` by the IO
     * thread; one whose id is unhashable raises there and stores nothing).
     * The wait returns exactly the stored reply, never while the slot is
     * empty, and leaves the entry in the table.
     */
    method WaitForResponse(packetId: PyKey, arrivals: seq<(Json, Json)>) returns (outcome: WaitOutcome, delivered: nat)
      modifies this`requestResponseMap
      ensures delivered <= |arrivals|
      ensures requestResponseMap == FilledAll(old(requestResponseMap), arrivals[..delivered])
      ensures outcome.MissingKey? <==> packetId !in old(requestResponseMap)
      ensures outcome.Response? ==>
        packetId in requestResponseMap && requestResponseMap[packetId] == Some(outcome.msg)
      ensures outcome.StillWaiting? ==>
        delivered == |arrivals| && packetId in requestResponseMap && requestResponseMap[packetId].None?
    {
      delivered := 0;
      if packetId !in requestResponseMap {
        return MissingKey, 0;
      }
      while requestResponseMap[packetId].None?
        invariant delivered <= |arrivals|
        invariant requestResponseMap == FilledAll(old(requestResponseMap), arrivals[..delivered])
        invariant packetId in requestResponseMap
        decreases |arrivals| - delivered
      {
        if delivered == |arrivals| {
          return StillWaiting, delivered;
        }
        var _ := OnResponse(arrivals[delivered].0, arrivals[delivered].1);
        FilledAllStep(old(requestResponseMap), arrivals, delivered);
        delivered := delivered + 1;
      }
      outcome := Response(requestResponseMap[packetId].value);
    }

    /**
     * submit_job_request as intended: a fresh id, registered and sent, then
     * the reply is awaited and interpreted by SubmitReply.
     */
    method SubmitJobRequest(params: Json, arrivals: seq<(Json, Json)>)
      returns (id: int, outcome: Option<Result<Json, PyException>>)
      requires Valid()
      modifies this
      ensures Valid()
      ensures id == old(currentPacketId) + 1 && currentPacketId == id
      ensures sent == old(sent) + [RequestFrame(id, "submitJob", params)]
      ensures IdKey(id) in requestResponseMap
      ensures outcome.Some? ==>
        requestResponseMap[IdKey(id)].Some? && outcome.value == SubmitReply(requestResponseMap[IdKey(id)].value)
      ensures notificationCallbacks == old(notificationCallbacks)
    {
      id := NextPacketId();
      SendRequest(id, RequestFrame(id, "submitJob", params));
      var waited, delivered := WaitForResponse(IdKey(id), arrivals);
      if waited.Response? {
        outcome := Some(SubmitReply(waited.msg));
      } else {
        outcome := Option.None;
      }
    }
  }

  lemma {:induction false} FilledAllStep(table: map<PyKey, Option<Json>>, replies: seq<(Json, Json)>, k: nat)
    requires k < |replies|
    ensures FilledAll(table, replies[..k + 1])
         == Filled(FilledAll(table, replies[..k]), replies[k].0, replies[k].1)
    decreases k
  {
    if k > 0 {
      var t1 := Filled(table, replies[0].0, replies[0].1);
      assert replies[..k + 1][1..] == replies[1..][..k];
      assert replies[..k][1..] == replies[1..][..k - 1];
      FilledAllStep(t1, replies[1..], k - 1);
    } else {
      assert replies[..1][1..] == [];
    }
  }
}
