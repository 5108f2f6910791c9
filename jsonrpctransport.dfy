/**
 * The JSON-RPC base class of the transport layer
 * (molequeue/transport/jsonrpc.cpp): packet classification, the table of
 * requests awaiting a reply, and the interpretation of incoming packets.
 *
 * Interpreting a packet produces the calls it makes to the handlers, in
 * order, as a list of events; the handlers themselves belong to the client
 * and server subclasses (see ClientJsonRpc and ServerJsonRpc).
 */
module JsonRpcTransport {
  import opened Wrappers
  import opened JsonValue
  import opened IdTypes
  import opened RpcMethods
  import opened JsonRpcEnvelope

  /** One call made while interpreting incoming data. */
  datatype Event =
    | UnparsablePacket                                  // handleUnparsablePacket
    | InvalidRequest(id: Json, data: Json)              // handleInvalidRequest
    | UnrecognizedRequest(id: Json, data: Json)         // handleUnrecognizedRequest
    | HandlePacket(m: RpcMethod, form: PacketForm, data: Json)  // the subclass's handlePacket

  /**
   * guessPacketForm: a non-null method makes a request (non-null id) or a
   * notification (null id); otherwise a non-null result makes a result,
   * then a non-null error an error; anything else is invalid.
   */
  function GuessPacketForm(root: Json): PacketForm {
    if !root.JObject? then InvalidPacket
    else if Get(root, "method") != JNull then
      (if Get(root, "id") != JNull then RequestPacket else NotificationPacket)
    else if Get(root, "result") != JNull then ResultPacket
    else if Get(root, "error") != JNull then ErrorPacket
    else InvalidPacket
  }

  /** The form guess agrees with the validators: a valid request with a non-null id is a request. */
  lemma ValidRequestGuessedRequest(root: Json, strict: bool)
    requires ValidateRequest(root, strict) && Get(root, "id") != JNull
    ensures GuessPacketForm(root) == RequestPacket
  {
  }

  /** A valid notification is guessed a notification. */
  lemma ValidNotificationGuessed(root: Json, strict: bool)
    requires ValidateNotification(root, strict)
    ensures GuessPacketForm(root) == NotificationPacket
  {
  }

  /** A valid response without a method is a result or an error, as its members say. */
  lemma ValidResponseGuessed(root: Json, strict: bool)
    requires ValidateResponse(root, strict) && !Has(root, "method")
    ensures Get(root, "result") != JNull ==> GuessPacketForm(root) == ResultPacket
    ensures Has(root, "error") ==> GuessPacketForm(root) == ErrorPacket
  {
  }

  /** A method member takes precedence over result and error members. */
  lemma MethodTakesPrecedence(root: Json)
    requires root.JObject? && Get(root, "method") != JNull
    ensures GuessPacketForm(root) in {RequestPacket, NotificationPacket}
  {
  }

  /**
   * Json::Value::asLargestUInt: null reads as 0, booleans as 0 or 1,
   * non-negative numbers as their (truncated) value; negative numbers,
   * strings, arrays and objects are refused.
   */
  function AsLargestUInt(v: Json): (r: Option<nat>)
    ensures v.JUInt? ==> r == Some(v.u)
    ensures v.JString? || v.JArray? || v.JObject? ==> r.None?
  {
    match v
    case JNull => Some(0)
    case JBool(b) => Some(if b then 1 else 0)
    case JInt(i) => if i >= 0 then Some(i) else None
    case JUInt(u) => Some(u)
    case JReal(r) => if r >= 0.0 && r < IdLimit as real then Some(r.Floor) else None
    case _ => None
  }

  /** The id of a reply that asLargestUInt refuses: a negative integer. */
  predicate NegativeReplyId(root: Json) {
    root.JObject? && Get(root, "method") == JNull && IsIntegral(Get(root, "id")) && IntegralValue(Get(root, "id")) < 0
  }

  /**
   * guessPacketMethod: a string method is mapped by name, any other non-null
   * method is invalid. Without a method, a non-null integral id is read with
   * asLargestUInt and looked up in the pending table (ignored when absent or
   * not integral), and a null id is invalid. None is the exception
   * asLargestUInt throws on a negative id.
   */
  function GuessPacketMethod(root: Json, pending: map<IdType, RpcMethod>): (c: Option<MethodCode>)
    ensures c.None? <==> NegativeReplyId(root)
    ensures Get(root, "method") == JNull && Get(root, "id") != JNull && IsIntegral(Get(root, "id"))
            && 0 <= IntegralValue(Get(root, "id")) < IdLimit ==>
              c == Some(if IntegralValue(Get(root, "id")) in pending
                        then Known(pending[IntegralValue(Get(root, "id"))]) else IgnoreMethod)
  {
    if !root.JObject? then Some(InvalidMethod)
    else
      var methodValue := Get(root, "method");
      if methodValue != JNull then
        Some(if !methodValue.JString? then InvalidMethod else MapMethodNameToInt(methodValue.s))
      else
        var idValue := Get(root, "id");
        if idValue != JNull then
          if !IsIntegral(idValue) then Some(IgnoreMethod)
          else
            match AsLargestUInt(idValue)
            case None => None
            case Some(u) =>
              var packetId := ToUnsigned64(u);
              Some(if packetId in pending then Known(pending[packetId]) else IgnoreMethod)
        else Some(InvalidMethod)
  }

  /** A reply to a registered request resolves to the method that request was registered with. */
  lemma RegisteredReplyResolves(pending: map<IdType, RpcMethod>, id: IdType, m: RpcMethod, result: Json)
    ensures GuessPacketMethod(Set(EmptyResponse(JUInt(id)), "result", result), pending[id := m]) == Some(Known(m))
  {
  }

  /** A reply whose id was never registered (or was already answered) is ignored. */
  lemma UnregisteredReplyIgnored(pending: map<IdType, RpcMethod>, id: IdType, result: Json)
    requires id !in pending
    ensures GuessPacketMethod(Set(EmptyResponse(JUInt(id)), "result", result), pending) == Some(IgnoreMethod)
  {
  }

  /** The validated form of a single (non-array) packet. */
  function ValidatedForm(data: Json): (form: PacketForm)
    ensures form == RequestPacket ==> ValidateRequest(data, false)
    ensures form == NotificationPacket ==> ValidateNotification(data, false)
    ensures form in {ResultPacket, ErrorPacket} ==> ValidateResponse(data, false)
  {
    match GuessPacketForm(data)
    case RequestPacket => if ValidateRequest(data, false) then RequestPacket else InvalidPacket
    case NotificationPacket => if ValidateNotification(data, false) then NotificationPacket else InvalidPacket
    case ResultPacket => if ValidateResponse(data, false) then ResultPacket else InvalidPacket
    case ErrorPacket => if ValidateResponse(data, false) then ErrorPacket else InvalidPacket
    case InvalidPacket => InvalidPacket
  }

  /**
   * The outcome of interpreting incoming data: the calls made, the new
   * pending table, and whether asLargestUInt threw on a reply's id (the
   * exception leaves interpretIncomingJsonRpc, abandoning the rest of a batch).
   */
  datatype Outcome = Outcome(events: seq<Event>, pending: map<IdType, RpcMethod>, thrown: bool)

  /** The call the method code makes. */
  function Calls(code: MethodCode, form: PacketForm, data: Json): (calls: seq<Event>)
    ensures |calls| <= 1
  {
    match code
    case IgnoreMethod => []
    case InvalidMethod => [InvalidRequest(Get(data, "id"), data)]
    case UnrecognizedMethod => [UnrecognizedRequest(Get(data, "id"), data)]
    case Known(m) => [HandlePacket(m, form, data)]
  }

  /**
   * interpretIncomingJsonRpc on one packet that is not an array: anything
   * but an object is an invalid request; otherwise the method code decides
   * the call, and a result or error reply then leaves the pending table. A
   * negative reply id throws in guessPacketMethod, before any call.
   */
  function InterpretSingle(pending: map<IdType, RpcMethod>, data: Json): (o: Outcome)
    requires !data.JArray?
    ensures o.pending == pending || ValidatedForm(data) in {ResultPacket, ErrorPacket}
    ensures NegativeReplyId(data) ==> o == Outcome([], pending, true)
  {
    if !data.JObject? then Outcome([InvalidRequest(JNull, data)], pending, false)
    else
      match GuessPacketMethod(data, pending)
      case None => Outcome([], pending, true)
      case Some(code) =>
      var form := ValidatedForm(data);
      var calls := Calls(code, form, data);
      if form == ResultPacket || form == ErrorPacket then
        match AsLargestUInt(Get(data, "id"))
        case Some(id) => Outcome(calls, pending - {ToUnsigned64(id)}, false)
        case None => Outcome(calls, pending, true)
      else Outcome(calls, pending, false)
  }

  /** interpretIncomingJsonRpc: a batch (array) is interpreted element by element, in order. */
  function Interpret(pending: map<IdType, RpcMethod>, data: Json): Outcome
    decreases data, 1
  {
    if data.JArray? then InterpretBatch(pending, data.items) else InterpretSingle(pending, data)
  }

  function InterpretBatch(pending: map<IdType, RpcMethod>, items: seq<Json>): Outcome
    decreases items, 0
  {
    if items == [] then Outcome([], pending, false)
    else
      var before := InterpretBatch(pending, items[..|items| - 1]);
      if before.thrown then before
      else
        var last := Interpret(before.pending, items[|items| - 1]);
        Outcome(before.events + last.events, last.pending, last.thrown)
  }

  /** Once an element of a batch throws, the elements after it are not interpreted. */
  lemma {:induction false} InterpretBatchStopped(pending: map<IdType, RpcMethod>, items: seq<Json>, i: nat)
    requires i <= |items| && InterpretBatch(pending, items[..i]).thrown
    ensures InterpretBatch(pending, items) == InterpretBatch(pending, items[..i])
    decreases |items| - i
  {
    if i < |items| {
      assert items[..i + 1][..i] == items[..i];
      InterpretBatchStopped(pending, items, i + 1);
    } else {
      assert items[..i] == items;
    }
  }

  /**
   * A reply with a negative id throws, and a batch holding one stops there:
   * `[{"id": -1}, r]` makes no call at all, whatever request `r` is.
   */
  lemma NegativeIdStopsBatch(pending: map<IdType, RpcMethod>, bad: Json, rest: seq<Json>)
    requires NegativeReplyId(bad)
    ensures Interpret(pending, JArray([bad] + rest)) == Outcome([], pending, true)
  {
    var items := [bad] + rest;
    assert items[..1] == [bad];
    assert items[..1][..0] == [];
    InterpretBatchStopped(pending, items, 1);
  }

  /** After a valid result or error with a non-negative integral id, that id is no longer pending. */
  lemma ReplyLeavesPending(pending: map<IdType, RpcMethod>, data: Json)
    requires data.JObject? && ValidatedForm(data) in {ResultPacket, ErrorPacket}
    requires IsIntegral(Get(data, "id")) && 0 <= IntegralValue(Get(data, "id")) < IdLimit
    ensures IntegralValue(Get(data, "id")) !in Interpret(pending, data).pending
  {
  }

  /** A registered request's valid reply is handled as a reply to that method and then forgotten. */
  lemma RegisteredReplyHandledOnce(pending: map<IdType, RpcMethod>, id: IdType, m: RpcMethod, result: Json)
    requires result != JNull
    ensures Interpret(pending[id := m], Set(EmptyResponse(JUInt(id)), "result", result))
         == Outcome([HandlePacket(m, ResultPacket, Set(EmptyResponse(JUInt(id)), "result", result))], pending[id := m] - {id}, false)
    ensures Interpret(pending[id := m] - {id}, Set(EmptyResponse(JUInt(id)), "result", result)).events == []
  {
    var p := Set(EmptyResponse(JUInt(id)), "result", result);
    assert Keys(p) == {"jsonrpc", "result", "id"};
    assert ValidatedForm(p) == ResultPacket;
  }

  class JsonRpc {
    /** Packet id of each request sent and not yet answered, with its method. */
    var pendingRequests: map<IdType, RpcMethod>

    constructor ()
      ensures pendingRequests == map[]
    {
      pendingRequests := map[];
    }

    /** registerRequest: the id now resolves to `m`. */
    method RegisterRequest(packetId: IdType, m: RpcMethod)
      modifies this
      ensures pendingRequests == old(pendingRequests)[packetId := m]
    {
      pendingRequests := pendingRequests[packetId := m];
    }

    /** registerReply: the id no longer resolves. */
    method RegisterReply(packetId: IdType)
      modifies this
      ensures pendingRequests == old(pendingRequests) - {packetId}
    {
      pendingRequests := pendingRequests - {packetId};
    }

    /** interpretIncomingJsonRpc. */
    method InterpretIncomingJsonRpc(data: Json) returns (events: seq<Event>, thrown: bool)
      modifies this
      ensures Outcome(events, pendingRequests, thrown) == Interpret(old(pendingRequests), data)
      decreases data
    {
      if data.JArray? {
        events, thrown := [], false;
        var i := 0;
        while i < |data.items| && !thrown
          invariant 0 <= i <= |data.items|
          invariant Outcome(events, pendingRequests, thrown) == InterpretBatch(old(pendingRequests), data.items[..i])
        {
          assert data.items[..i + 1][..i] == data.items[..i];
          var more;
          more, thrown := InterpretIncomingJsonRpc(data.items[i]);
          events := events + more;
          i := i + 1;
        }
        if thrown {
          InterpretBatchStopped(old(pendingRequests), data.items, i);
        } else {
          assert data.items[..i] == data.items;
        }
        return;
      }
      thrown := false;
      if !data.JObject? {
        events := [InvalidRequest(JNull, data)];
        return;
      }
      var form := ValidatedForm(data);
      var code := GuessPacketMethod(data, pendingRequests);
      if code.None? {
        events, thrown := [], true;
        return;
      }
      match code.value {
        case IgnoreMethod => events := [];
        case InvalidMethod => events := [InvalidRequest(Get(data, "id"), data)];
        case UnrecognizedMethod => events := [UnrecognizedRequest(Get(data, "id"), data)];
        case Known(m) => events := [HandlePacket(m, form, data)];
      }
      if form == ResultPacket || form == ErrorPacket {
        var id := AsLargestUInt(Get(data, "id"));
        if id.Some? {
          RegisterReply(ToUnsigned64(id.value));
        } else {
          thrown := true;
        }
      }
    }

    /**
     * interpretIncomingPacket: bytes that do not parse are reported once and
     * nothing else happens; parsed data is interpreted. Parsing is an input
     * here: `parsed` is None when the JSON reader fails.
     */
    method InterpretIncomingPacket(parsed: Option<Json>) returns (events: seq<Event>, thrown: bool)
      modifies this
      ensures parsed.None? ==> events == [UnparsablePacket] && !thrown && pendingRequests == old(pendingRequests)
      ensures parsed.Some? ==> Outcome(events, pendingRequests, thrown) == Interpret(old(pendingRequests), parsed.value)
    {
      if parsed.None? {
        events, thrown := [UnparsablePacket], false;
        return;
      }
      events, thrown := InterpretIncomingJsonRpc(parsed.value);
    }
  }
}
