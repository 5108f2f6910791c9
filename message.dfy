/**
 * The JSON-RPC message of the transport layer (molequeue/transport/message.cpp):
 * a typed message whose members are reachable only for the types they belong
 * to, its conversion to a JSON object, and the parsing of a raw JSON object
 * into a request, notification, response or error.
 *
 * The message ids handed out and looked up by the id manager, and the
 * connection's own send, are inputs to the operations below.
 */
module TransportMessage {
  import opened Wrappers
  import opened JsonValue

  datatype MessageType = Invalid | Request | Notification | Response | Error | Raw

  /**
   * The message's data members, as one value. The id is a QJsonValue that
   * may be Undefined (None): that is what QJsonObject::value gives for a
   * reply without an "id" member.
   */
  datatype Fields = Fields(
    mtype: MessageType,
    methodName: string,
    id: Option<Json>,
    params: Json,
    result: Json,
    errorCode: int,
    errorMessage: string,
    errorData: Json,
    rawJson: map<string, Json>)

  /** The members of a default-constructed message of type `t`. */
  function Blank(t: MessageType): (f: Fields)
    ensures f.mtype == t && f.errorCode == 0 && f.rawJson == map[]
  {
    Fields(t, "", Some(JNull), JNull, JNull, 0, "", JNull, map[])
  }

  /** QJsonValue::toString: a string's text, the empty string for anything else. */
  function ToStr(v: Json): string {
    if v.JString? then v.s else ""
  }

  /**
   * Member of a JSON object, read where the undefined value of an absent
   * member is only tested or converted, which treats it as null would be.
   */
  function Value(json: map<string, Json>, key: string): Json {
    if key in json then json[key] else JNull
  }

  /** QJsonObject::value kept as it is: None (Undefined) when the member is absent. */
  function Member(json: map<string, Json>, key: string): Option<Json> {
    if key in json then Some(json[key]) else None
  }

  /** QJsonObject::insert("id", id): inserting an undefined value removes the key. */
  function WithId(obj: map<string, Json>, id: Option<Json>): map<string, Json> {
    if id.Some? then obj["id" := id.value] else obj - {"id"}
  }

  /** QStringList::join. */
  function Join(parts: seq<string>, sep: string): string {
    if parts == [] then ""
    else if |parts| == 1 then parts[0]
    else parts[0] + sep + Join(parts[1..], sep)
  }

  /** params that toJsonObject writes out: a non-empty object or array. */
  predicate NonEmptyStructured(v: Json) {
    (v.JObject? && v.members != map[]) || (v.JArray? && v.items != [])
  }

  /**
   * toJsonObject: the members written for each type. Requests and
   * notifications carry params only when they are non-empty and structured,
   * notifications never carry an id, an undefined id is left out, and an
   * error's data is left out when null. A raw message is its JSON, an
   * invalid one the empty object.
   */
  function ToJsonObject(f: Fields): (obj: map<string, Json>)
    ensures f.mtype == Notification ==> "id" !in obj
    ensures f.mtype in {Request, Notification} ==> ("params" in obj <==> NonEmptyStructured(f.params))
    ensures f.mtype in {Request, Response, Error} ==>
      ("id" in obj <==> f.id.Some?) && (f.id.Some? ==> obj["id"] == f.id.value)
    ensures f.mtype == Error ==> "error" in obj && obj["error"].JObject?
                                 && ("data" in obj["error"].members <==> f.errorData != JNull)
    ensures f.mtype == Invalid ==> obj == map[]
  {
    match f.mtype
    case Request =>
      var base := map["jsonrpc" := JString("2.0"), "method" := JString(f.methodName)];
      WithId(if NonEmptyStructured(f.params) then base["params" := f.params] else base, f.id)
    case Notification =>
      var base := map["jsonrpc" := JString("2.0"), "method" := JString(f.methodName)];
      if NonEmptyStructured(f.params) then base["params" := f.params] else base
    case Response =>
      WithId(map["jsonrpc" := JString("2.0"), "result" := f.result], f.id)
    case Error =>
      var e := map["code" := JInt(f.errorCode), "message" := JString(f.errorMessage)];
      var errorObject := if f.errorData != JNull then e["data" := f.errorData] else e;
      WithId(map["jsonrpc" := JString("2.0"), "error" := JObject(errorObject)], f.id)
    case Raw => f.rawJson
    case Invalid => map[]
  }

  // ---- parsing ----

  /** The complaints of parse's first check: the version member and the presence of id or method. */
  function EnvelopeErrors(json: map<string, Json>): (errors: seq<string>)
    ensures errors == [] <==>
      (Value(json, "jsonrpc") == JString("2.0")
       && ("id" in json || "method" in json)
       && ("method" in json ==> json["method"].JString?))
  {
    (if "jsonrpc" !in json then ["jsonrpc key missing."] else [])
    + (if !Value(json, "jsonrpc").JString? then ["jsonrpc key must be a string."] else [])
    + (if ToStr(Value(json, "jsonrpc")) != "2.0"
       then ["Unrecognized jsonrpc string: " + ToStr(Value(json, "jsonrpc"))] else [])
    + (if "id" !in json && "method" !in json then ["Missing both id and method."] else [])
    + (if "method" in json && !json["method"].JString? then ["method must be a string."] else [])
  }

  /** The complaints of interpretRequest. */
  function RequestErrors(json: map<string, Json>): (errors: seq<string>)
    ensures errors == [] <==>
      (Value(json, "method").JString? && "id" in json
       && ("params" in json ==> json["params"].JArray? || json["params"].JObject?))
  {
    (if !Value(json, "method").JString? then ["method is not a string."] else [])
    + (if "id" !in json then ["id missing."] else [])
    + (if "params" in json && !json["params"].JArray? && !json["params"].JObject?
       then ["params must be structured if present."] else [])
  }

  /**
   * generateErrorResponse: an Error carrying the method and id of a
   * request, raw or invalid message; an invalid message for any other type.
   */
  function ErrorResponseOf(f: Fields): (e: Fields)
    ensures f.mtype in {Request, Raw, Invalid} ==> e.mtype == Error && e.id == f.id && e.methodName == f.methodName
    ensures f.mtype !in {Request, Raw, Invalid} ==> e == Blank(Invalid)
  {
    if f.mtype in {Request, Raw, Invalid}
    then Blank(Error).(methodName := f.methodName, id := f.id)
    else Blank(Invalid)
  }

  /** The -32600 "Invalid request" reply that parse fills in for a rejected raw message. */
  function InvalidRequestReply(f: Fields, json: map<string, Json>, errors: seq<string>): (e: Fields)
    requires f.mtype == Raw
    ensures e.mtype == Error && e.errorCode == -32600 && e.errorMessage == "Invalid request"
    ensures e.errorData.JObject? && "request" in e.errorData.members && e.errorData.members["request"] == JObject(json)
  {
    var description := Join(["Invalid request:"] + errors, " ");
    ErrorResponseOf(f).(errorCode := -32600, errorMessage := "Invalid request",
      errorData := JObject(map["description" := JString(description), "request" := JObject(json)]))
  }

  /** The complaints about an error member, and the code, message and data read from it. */
  datatype ErrorReading = ErrorReading(errors: seq<string>, code: int, message: string, data: Json)

  /**
   * interpretError's reading of the error member: it must be an object with
   * an integral numeric code (within 1e-5) and a string message; data is
   * copied when present. Members not read keep the message's previous values.
   */
  function ReadError(errorValue: Json, f: Fields): (r: ErrorReading)
    ensures r.errors == [] <==>
      (errorValue.JObject? && "code" in errorValue.members && IsNumeric(errorValue.members["code"])
       && "message" in errorValue.members && errorValue.members["message"].JString?
       && -1.0 / 100000.0 <= ToReal(errorValue.members["code"]) - Truncate(ToReal(errorValue.members["code"])) as real <= 1.0 / 100000.0)
  {
    if !errorValue.JObject? then ErrorReading(["error must be an object."], f.errorCode, f.errorMessage, f.errorData)
    else
      var e := errorValue.members;
      var code := if "code" in e then ToReal(e["code"]) else 0.0;
      var codeErrors :=
        if "code" !in e then ["error.code missing."]
        else if !IsNumeric(e["code"]) then ["error.code is not numeric."]
        else if code - Truncate(code) as real > 1.0 / 100000.0 || Truncate(code) as real - code > 1.0 / 100000.0
        then ["error.code is not integral."]
        else [];
      var newCode := if "code" in e && IsNumeric(e["code"]) && codeErrors == [] then Truncate(code) else f.errorCode;
      var messageErrors :=
        if "message" !in e then ["error.message missing."]
        else if !e["message"].JString? then ["error.message is not a string."]
        else [];
      var newMessage := if messageErrors == [] then e["message"].s else f.errorMessage;
      var newData := if "data" in e then e["data"] else f.errorData;
      ErrorReading(codeErrors + messageErrors, newCode, newMessage, newData)
  }

  /** interpretError: an error that cannot be read becomes a -32000 "Server error" holding the original. */
  function InterpretError(f: Fields, json: map<string, Json>, methodName: string): (g: Fields)
    ensures g.mtype == Error && g.methodName == methodName && g.id == Member(json, "id")
    ensures g.params == f.params && g.result == f.result && g.rawJson == f.rawJson
    ensures ReadError(Value(json, "error"), f).errors != [] ==>
      g.errorCode == -32000 && g.errorMessage == "Server error"
      && g.errorData.JObject? && "origMessage" in g.errorData.members
      && g.errorData.members["origMessage"] == Value(json, "error")
  {
    var r := ReadError(Value(json, "error"), f);
    var g := f.(mtype := Error, methodName := methodName, id := Member(json, "id"));
    if r.errors == [] then g.(errorCode := r.code, errorMessage := r.message, errorData := r.data)
    else
      var description := Join(["Malformed error response:"] + r.errors, " ");
      g.(errorCode := -32000, errorMessage := "Server error",
         errorData := JObject(map["description" := JString(description), "origMessage" := Value(json, "error")]))
  }

  /** What parse does: whether it succeeded, the message's new members, and the error reply it fills in. */
  datatype ParseOutcome = ParseOutcome(ok: bool, fields: Fields, errorReply: Option<Fields>)

  /**
   * parse: only a raw message is parsed (any other returns true unchanged).
   * A bad envelope is rejected with an error reply; otherwise result makes
   * a response, error an error, a missing id a notification, and anything
   * else is interpreted as a request. A reply's method is the one the id
   * manager recorded for its id (`lookedUp`).
   */
  function ParseFields(f: Fields, lookedUp: string): (o: ParseOutcome)
    ensures f.mtype != Raw ==> o == ParseOutcome(true, f, None)
    ensures !o.ok ==> o.fields == f && o.errorReply.Some? && o.errorReply.value.errorCode == -32600
    ensures o.ok ==> o.errorReply.None?
    ensures f.mtype == Raw && EnvelopeErrors(f.rawJson) != [] ==> !o.ok
  {
    if f.mtype != Raw then ParseOutcome(true, f, None)
    else
      var json := f.rawJson;
      var errors := EnvelopeErrors(json);
      var methodName :=
        if "method" in json then ToStr(json["method"]) else lookedUp;
      if errors != [] then ParseOutcome(false, f, Some(InvalidRequestReply(f, json, errors)))
      else if "result" in json then
        ParseOutcome(true, f.(mtype := Response, methodName := methodName,
                              result := json["result"], id := Member(json, "id")), None)
      else if "error" in json then
        ParseOutcome(true, InterpretError(f, json, methodName), None)
      else if "id" !in json then
        ParseOutcome(true, f.(mtype := Notification, methodName := ToStr(Value(json, "method")),
                              params := Value(json, "params"), id := Some(JNull)), None)
      else
        var requestErrors := RequestErrors(json);
        if requestErrors != [] then ParseOutcome(false, f, Some(InvalidRequestReply(f, json, requestErrors)))
        else
          ParseOutcome(true, f.(mtype := Request, methodName := json["method"].s,
                                params := Value(json, "params"), id := Some(json["id"])), None)
  }

  /** The classification order of parse: result, then error, then a missing id, then request. */
  lemma ParseClassification(f: Fields, lookedUp: string)
    requires f.mtype == Raw && EnvelopeErrors(f.rawJson) == []
    ensures var o := ParseFields(f, lookedUp);
      && ("result" in f.rawJson ==> o.ok && o.fields.mtype == Response)
      && ("result" !in f.rawJson && "error" in f.rawJson ==> o.ok && o.fields.mtype == Error)
      && ("result" !in f.rawJson && "error" !in f.rawJson && "id" !in f.rawJson ==> o.ok && o.fields.mtype == Notification)
      && ("result" !in f.rawJson && "error" !in f.rawJson && "id" in f.rawJson ==>
            (o.ok <==> RequestErrors(f.rawJson) == []) && (o.ok ==> o.fields.mtype == Request))
  {
  }

  /** A request whose params are present but neither array nor object is rejected with -32600. */
  lemma UnstructuredParamsRejected(f: Fields, lookedUp: string)
    requires f.mtype == Raw && EnvelopeErrors(f.rawJson) == []
    requires "result" !in f.rawJson && "error" !in f.rawJson && "id" in f.rawJson
    requires "params" in f.rawJson && !f.rawJson["params"].JArray? && !f.rawJson["params"].JObject?
    ensures !ParseFields(f, lookedUp).ok
  {
  }

  /** A malformed error member never makes parsing fail. */
  lemma MalformedErrorStillParses(f: Fields, lookedUp: string)
    requires f.mtype == Raw && EnvelopeErrors(f.rawJson) == []
    requires "result" !in f.rawJson && "error" in f.rawJson
    requires ReadError(f.rawJson["error"], f).errors != []
    ensures var o := ParseFields(f, lookedUp);
      o.ok && o.fields.errorCode == -32000 && o.fields.errorMessage == "Server error"
      && o.fields.errorData.JObject? && o.fields.errorData.members["origMessage"] == f.rawJson["error"]
  {
  }

  /** The params a request or notification keeps after a trip through JSON. */
  function SentParams(params: Json): Json {
    if NonEmptyStructured(params) then params else JNull
  }

  /**
   * Parsing what toJsonObject wrote for a request gives back the request,
   * params as sent. A request whose id is undefined is written without one,
   * and so comes back as a notification.
   */
  lemma RequestRoundTrip(f: Fields, lookedUp: string)
    requires f.mtype == Request
    ensures var o := ParseFields(Blank(Raw).(rawJson := ToJsonObject(f)), lookedUp);
      o.ok && o.fields.methodName == f.methodName && o.fields.params == SentParams(f.params)
      && (f.id.Some? ==> o.fields.mtype == Request && o.fields.id == f.id)
      && (f.id.None? ==> o.fields.mtype == Notification && o.fields.id == Some(JNull))
  {
    var json := ToJsonObject(f);
    assert json["jsonrpc"] == JString("2.0") && "method" in json;
    assert "result" !in json && "error" !in json;
  }

  /** Parsing what toJsonObject wrote for a notification gives back the notification. */
  lemma NotificationRoundTrip(f: Fields, lookedUp: string)
    requires f.mtype == Notification
    ensures var o := ParseFields(Blank(Raw).(rawJson := ToJsonObject(f)), lookedUp);
      o.ok && o.fields.mtype == Notification && o.fields.methodName == f.methodName
      && o.fields.id == Some(JNull) && o.fields.params == SentParams(f.params)
  {
    var json := ToJsonObject(f);
    assert json["jsonrpc"] == JString("2.0") && "method" in json;
    assert "result" !in json && "error" !in json && "id" !in json;
  }

  /**
   * Parsing what toJsonObject wrote for a response gives back its result and
   * id. A response whose id is undefined is written with neither id nor
   * method, which parse rejects.
   */
  lemma ResponseRoundTrip(f: Fields, lookedUp: string)
    requires f.mtype == Response
    ensures var o := ParseFields(Blank(Raw).(rawJson := ToJsonObject(f)), lookedUp);
      && (f.id.Some? ==> o.ok && o.fields.mtype == Response && o.fields.methodName == lookedUp
                         && o.fields.id == f.id && o.fields.result == f.result)
      && (f.id.None? ==> !o.ok)
  {
    var json := ToJsonObject(f);
    assert json["jsonrpc"] == JString("2.0") && "result" in json;
  }

  /**
   * Parsing what toJsonObject wrote for an error gives back its id, code,
   * message and data. An error whose id is undefined is written with
   * neither id nor method, which parse rejects.
   */
  lemma ErrorRoundTrip(f: Fields, lookedUp: string)
    requires f.mtype == Error
    ensures var o := ParseFields(Blank(Raw).(rawJson := ToJsonObject(f)), lookedUp);
      && (f.id.Some? ==> o.ok && o.fields.mtype == Error && o.fields.methodName == lookedUp && o.fields.id == f.id
                         && o.fields.errorCode == f.errorCode && o.fields.errorMessage == f.errorMessage
                         && o.fields.errorData == f.errorData)
      && (f.id.None? ==> !o.ok)
  {
    var json := ToJsonObject(f);
    assert json["jsonrpc"] == JString("2.0") && "result" !in json && "error" in json;
    if f.id.Some? {
      var r := ReadError(json["error"], Blank(Raw).(rawJson := json));
      assert Truncate(f.errorCode as real) == f.errorCode;
      assert r.errors == [];
    }
  }

  /**
   * A reply (result or error) is written back with an "id" exactly when the
   * packet it was parsed from had one, and then with the same id: a reply
   * without an id keeps an undefined id, which toJsonObject leaves out.
   */
  lemma ReplyIdWrittenBack(f: Fields, lookedUp: string)
    requires f.mtype == Raw && EnvelopeErrors(f.rawJson) == []
    requires "result" in f.rawJson || "error" in f.rawJson
    ensures var o := ParseFields(f, lookedUp);
      var obj := ToJsonObject(o.fields);
      o.ok && o.fields.mtype in {Response, Error}
      && ("id" in obj <==> "id" in f.rawJson)
      && ("id" in f.rawJson ==> obj["id"] == f.rawJson["id"])
  {
  }

  /** Types each accessor accepts (checkType). */
  predicate HasMethod(t: MessageType) { t in {Request, Notification, Response, Error} }
  predicate HasParams(t: MessageType) { t in {Request, Notification} }
  predicate HasId(t: MessageType) { t in {Request, Response, Error} }

  class Message {
    var mtype: MessageType
    var methodName: string
    var id: Option<Json>
    var params: Json
    var result: Json
    var errorCode: int
    var errorMessage: string
    var errorData: Json
    var rawJson: map<string, Json>
    /** The connection: None for a null pointer, otherwise whether it is open. */
    var connection: Option<bool>
    var endpoint: string

    /** All data members as one value. */
    function Snapshot(): Fields
      reads this
    {
      Fields(mtype, methodName, id, params, result, errorCode, errorMessage, errorData, rawJson)
    }

    /** Message(conn, endpoint): an invalid message. */
    constructor (conn: Option<bool>, endpoint': string)
      ensures Snapshot() == Blank(Invalid) && connection == conn && endpoint == endpoint'
    {
      mtype, methodName, id, params, result := Invalid, "", Some(JNull), JNull, JNull;
      errorCode, errorMessage, errorData, rawJson := 0, "", JNull, map[];
      connection, endpoint := conn, endpoint';
    }

    /** Message(type, conn, endpoint): a message of the given type with empty members. */
    constructor OfType(t: MessageType, conn: Option<bool>, endpoint': string)
      ensures Snapshot() == Blank(t) && connection == conn && endpoint == endpoint'
    {
      mtype, methodName, id, params, result := t, "", Some(JNull), JNull, JNull;
      errorCode, errorMessage, errorData, rawJson := 0, "", JNull, map[];
      connection, endpoint := conn, endpoint';
    }

    /** Message(rawJson, conn, endpoint): a raw message awaiting parse. */
    constructor FromRaw(json: map<string, Json>, conn: Option<bool>, endpoint': string)
      ensures Snapshot() == Blank(Raw).(rawJson := json) && connection == conn && endpoint == endpoint'
    {
      mtype, methodName, id, params, result := Raw, "", Some(JNull), JNull, JNull;
      errorCode, errorMessage, errorData, rawJson := 0, "", JNull, json;
      connection, endpoint := conn, endpoint';
    }

    /** The copy constructor: every member is copied. */
    constructor Copy(other: Message)
      ensures Snapshot() == other.Snapshot()
      ensures connection == other.connection && endpoint == other.endpoint
    {
      mtype, methodName, id, params, result := other.mtype, other.methodName, other.id, other.params, other.result;
      errorCode, errorMessage, errorData, rawJson := other.errorCode, other.errorMessage, other.errorData, other.rawJson;
      connection, endpoint := other.connection, other.endpoint;
    }

    /** method(): empty for raw and invalid messages. */
    function Method(): (m: string)
      reads this
      ensures HasMethod(mtype) ==> m == methodName
      ensures !HasMethod(mtype) ==> m == ""
    {
      if HasMethod(mtype) then methodName else ""
    }

    /** params(): null unless a request or notification. */
    function Params(): (p: Json)
      reads this
      ensures HasParams(mtype) ==> p == params
      ensures !HasParams(mtype) ==> p == JNull
    {
      if HasParams(mtype) then params else JNull
    }

    /** result(): null unless a response. */
    function Result(): (r: Json)
      reads this
      ensures mtype == Response ==> r == result
      ensures mtype != Response ==> r == JNull
    {
      if mtype == Response then result else JNull
    }

    /** errorCode(): 0 unless an error. */
    function ErrorCode(): (c: int)
      reads this
      ensures mtype == Error ==> c == errorCode
      ensures mtype != Error ==> c == 0
    {
      if mtype == Error then errorCode else 0
    }

    /** errorMessage(): empty unless an error. */
    function ErrorMessage(): (m: string)
      reads this
      ensures mtype == Error ==> m == errorMessage
      ensures mtype != Error ==> m == ""
    {
      if mtype == Error then errorMessage else ""
    }

    /** errorData(): null unless an error. */
    function ErrorData(): (d: Json)
      reads this
      ensures mtype == Error ==> d == errorData
      ensures mtype != Error ==> d == JNull
    {
      if mtype == Error then errorData else JNull
    }

    /** id(): null unless a request, response or error; it may be undefined for a parsed reply. */
    function Id(): (i: Option<Json>)
      reads this
      ensures HasId(mtype) ==> i == id
      ensures !HasId(mtype) ==> i == Some(JNull)
    {
      if HasId(mtype) then id else Some(JNull)
    }

    /** setMethod: ignored for raw and invalid messages. */
    method SetMethod(m: string)
      modifies this
      ensures Snapshot() == if HasMethod(old(mtype)) then old(Snapshot()).(methodName := m) else old(Snapshot())
    {
      if HasMethod(mtype) {
        methodName := m;
      }
    }

    /** setParams (array or object overloads): ignored unless a request or notification. */
    method SetParams(p: Json)
      requires p.JArray? || p.JObject?
      modifies this
      ensures Snapshot() == if HasParams(old(mtype)) then old(Snapshot()).(params := p) else old(Snapshot())
    {
      if HasParams(mtype) {
        params := p;
      }
    }

    /** setResult: ignored unless a response. */
    method SetResult(r: Json)
      modifies this
      ensures Snapshot() == if old(mtype) == Response then old(Snapshot()).(result := r) else old(Snapshot())
    {
      if mtype == Response {
        result := r;
      }
    }

    /** setErrorCode: ignored unless an error. */
    method SetErrorCode(c: int)
      modifies this
      ensures Snapshot() == if old(mtype) == Error then old(Snapshot()).(errorCode := c) else old(Snapshot())
    {
      if mtype == Error {
        errorCode := c;
      }
    }

    /** setErrorMessage: ignored unless an error. */
    method SetErrorMessage(m: string)
      modifies this
      ensures Snapshot() == if old(mtype) == Error then old(Snapshot()).(errorMessage := m) else old(Snapshot())
    {
      if mtype == Error {
        errorMessage := m;
      }
    }

    /** setErrorData: ignored unless an error. */
    method SetErrorData(d: Json)
      modifies this
      ensures Snapshot() == if old(mtype) == Error then old(Snapshot()).(errorData := d) else old(Snapshot())
    {
      if mtype == Error {
        errorData := d;
      }
    }

    /** setId: ignored unless a request, response or error. */
    method SetId(i: Option<Json>)
      modifies this
      ensures Snapshot() == if HasId(old(mtype)) then old(Snapshot()).(id := i) else old(Snapshot())
    {
      if HasId(mtype) {
        id := i;
      }
    }

    /**
     * send: refused for an invalid message and for a missing or closed
     * connection. A request takes a fresh, defined id from the id manager (`freshId`)
     * on every send. The packet written is the message's JSON object; whether
     * the connection accepts it is `accepted`.
     */
    method Send(freshId: Json, accepted: bool) returns (ok: bool, packet: Option<map<string, Json>>)
      modifies this
      ensures old(mtype) == Invalid || old(connection) != Some(true) ==>
        !ok && packet.None? && Snapshot() == old(Snapshot())
      ensures old(mtype) != Invalid && old(connection) == Some(true) ==>
        ok == accepted
        && Snapshot() == (if old(mtype) == Request then old(Snapshot()).(id := Some(freshId)) else old(Snapshot()))
        && packet == Some(ToJsonObject(Snapshot()))
    {
      if mtype == Invalid || connection != Some(true) {
        return false, None;
      }
      if mtype == Request {
        id := Some(freshId);
      }
      packet := Some(ToJsonObject(Snapshot()));
      ok := accepted;
    }

    /** generateResponse: a response with this request's method and id; an invalid message otherwise. */
    method GenerateResponse() returns (resp: Message)
      ensures fresh(resp)
      ensures mtype == Request ==>
        resp.Snapshot() == Blank(Response).(methodName := methodName, id := id)
        && resp.connection == connection && resp.endpoint == endpoint
      ensures mtype != Request ==> resp.Snapshot() == Blank(Invalid) && resp.connection.None? && resp.endpoint == ""
    {
      if mtype != Request {
        resp := new Message(None, "");
        return;
      }
      resp := new Message.OfType(Response, connection, endpoint);
      resp.methodName, resp.id := methodName, id;
    }

    /** generateErrorResponse: an error with this message's method and id (see ErrorResponseOf). */
    method GenerateErrorResponse() returns (resp: Message)
      ensures fresh(resp)
      ensures resp.Snapshot() == ErrorResponseOf(Snapshot())
      ensures mtype in {Request, Raw, Invalid} ==> resp.connection == connection && resp.endpoint == endpoint
    {
      if mtype !in {Request, Raw, Invalid} {
        resp := new Message(None, "");
        return;
      }
      resp := new Message.OfType(Error, connection, endpoint);
      resp.methodName, resp.id := methodName, id;
    }

    /**
     * parse(errorMessage): interprets a raw message in place. The error reply
     * is returned (null when parse leaves the caller's reply untouched).
     */
    method Parse(lookedUp: string) returns (ok: bool, errorReply: Message?)
      modifies this
      ensures var o := ParseFields(old(Snapshot()), lookedUp);
        ok == o.ok && Snapshot() == o.fields
        && (errorReply == null <==> o.errorReply.None?)
        && (errorReply != null ==> fresh(errorReply) && errorReply.Snapshot() == o.errorReply.value)
      ensures connection == old(connection) && endpoint == old(endpoint)
    {
      if mtype != Raw {
        return true, null;
      }
      var json := rawJson;
      var errors := EnvelopeErrors(json);
      var m := if "method" in json then ToStr(json["method"]) else lookedUp;
      if errors != [] {
        errorReply := ReplyToInvalid(json, errors);
        return false, errorReply;
      }
      if "result" in json {
        InterpretResponse(json, m);
        return true, null;
      }
      if "error" in json {
        InterpretErrorMember(json, m);
        return true, null;
      }
      if "id" !in json {
        InterpretNotification(json);
        return true, null;
      }
      ok, errorReply := InterpretRequest(json);
    }

    /** interpretResponse: the id is the packet's, undefined when it has none. */
    method InterpretResponse(json: map<string, Json>, m: string)
      requires "result" in json
      modifies this
      ensures Snapshot() == old(Snapshot()).(mtype := Response, methodName := m, result := json["result"], id := Member(json, "id"))
      ensures connection == old(connection) && endpoint == old(endpoint)
    {
      mtype, methodName, result, id := Response, m, json["result"], Member(json, "id");
    }

    /** interpretError (the id undefined when the packet has none). */
    method InterpretErrorMember(json: map<string, Json>, m: string)
      modifies this
      ensures Snapshot() == InterpretError(old(Snapshot()), json, m)
      ensures connection == old(connection) && endpoint == old(endpoint)
    {
      var g := InterpretError(Snapshot(), json, m);
      mtype, methodName, id := g.mtype, g.methodName, g.id;
      errorCode, errorMessage, errorData := g.errorCode, g.errorMessage, g.errorData;
      assert Snapshot() == g;
    }

    /** interpretNotification. */
    method InterpretNotification(json: map<string, Json>)
      modifies this
      ensures Snapshot() == old(Snapshot()).(mtype := Notification, methodName := ToStr(Value(json, "method")),
                                            params := Value(json, "params"), id := Some(JNull))
      ensures connection == old(connection) && endpoint == old(endpoint)
    {
      mtype, methodName, params, id := Notification, ToStr(Value(json, "method")), Value(json, "params"), Some(JNull);
    }

    /** interpretRequest: the request checks, then the request's members. */
    method InterpretRequest(json: map<string, Json>) returns (ok: bool, errorReply: Message?)
      requires mtype == Raw
      modifies this
      ensures var errors := RequestErrors(json);
        && (ok <==> errors == [])
        && (ok ==> errorReply == null && Snapshot() == old(Snapshot()).(mtype := Request, methodName := json["method"].s,
                                                                         params := Value(json, "params"), id := Some(json["id"])))
        && (!ok ==> errorReply != null && fresh(errorReply) && Snapshot() == old(Snapshot())
                    && errorReply.Snapshot() == InvalidRequestReply(old(Snapshot()), json, errors))
      ensures connection == old(connection) && endpoint == old(endpoint)
    {
      var requestErrors := RequestErrors(json);
      if requestErrors != [] {
        errorReply := ReplyToInvalid(json, requestErrors);
        return false, errorReply;
      }
      mtype, methodName, params, id := Request, json["method"].s, Value(json, "params"), Some(json["id"]);
      ok, errorReply := true, null;
    }

    /** The -32600 reply to a raw message that cannot be interpreted. */
    method ReplyToInvalid(json: map<string, Json>, errors: seq<string>) returns (reply: Message)
      requires mtype == Raw
      ensures fresh(reply) && reply.Snapshot() == InvalidRequestReply(Snapshot(), json, errors)
    {
      reply := GenerateErrorResponse();
      reply.SetErrorCode(-32600);
      reply.SetErrorMessage("Invalid request");
      var description := Join(["Invalid request:"] + errors, " ");
      reply.SetErrorData(JObject(map["description" := JString(description), "request" := JObject(json)]));
    }
  }
}
