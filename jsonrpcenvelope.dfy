/**
 * JSON-RPC 2.0 envelopes as MoleQueue checks and builds them
 * (molequeue/transport/jsonrpc.cpp; the older molequeue/jsonrpc.cpp has the
 * same validators and skeleton builders, with debug output only).
 *
 * The validators walk the member names once, setting a flag for each of the
 * four names they know and collecting the rest as extra members; then they
 * check the flags and the member values. The walk is ScanMembers below; the
 * validators themselves are stated on member presence, which is what the
 * flags come to (member names of an object are unique).
 */
module JsonRpcEnvelope {
  import opened JsonValue
  import opened IdTypes

  /** What a packet looks like from its members (PacketForm / PacketType). */
  datatype PacketForm = RequestPacket | NotificationPacket | ResultPacket | ErrorPacket | InvalidPacket

  /**
   * The member walk of every validator: for each member name, the first
   * matching known name whose flag is still clear gets its flag set;
   * a name matching none is an extra member.
   */
  method ScanMembers(names: seq<string>, known: seq<string>) returns (found: seq<bool>, extra: seq<string>)
    requires forall i, j :: 0 <= i < j < |names| ==> names[i] != names[j]
    requires forall i, j :: 0 <= i < j < |known| ==> known[i] != known[j]
    ensures |found| == |known|
    ensures forall k :: 0 <= k < |known| ==> (found[k] <==> known[k] in names)
    ensures forall n :: n in extra <==> n in names && n !in known
  {
    found := seq(|known|, _ => false);
    extra := [];
    var i := 0;
    while i < |names|
      invariant 0 <= i <= |names|
      invariant |found| == |known|
      invariant forall k :: 0 <= k < |known| ==> (found[k] <==> known[k] in names[..i])
      invariant forall n :: n in extra <==> n in names[..i] && n !in known
    {
      var name := names[i];
      var k := 0;
      var matched := false;
      while k < |known| && !matched
        invariant 0 <= k <= |known|
        invariant |found| == |known|
        invariant forall q :: 0 <= q < |known| ==> (found[q] <==> known[q] in names[..i] || (matched && known[q] == name))
        invariant matched ==> name in known
        invariant !matched ==> forall q :: 0 <= q < k ==> known[q] != name
      {
        if !found[k] && known[k] == name {
          found := found[k := true];
          matched := true;
        }
        k := k + 1;
      }
      if !matched {
        extra := extra + [name];
      }
      assert names[..i + 1] == names[..i] + [name];
      i := i + 1;
    }
    assert names[..i] == names;
  }

  /** An `id` must be a string, a number or null. */
  predicate IdShapeOk(id: Json) {
    id.JString? || IsNumeric(id) || id.JNull?
  }

  /** True when the object has a member outside `known`. */
  predicate HasExtra(packet: Json, known: set<string>) {
    exists k :: k in Keys(packet) && k !in known
  }

  const RequestMembers: set<string> := {"jsonrpc", "method", "params", "id"}
  const ResponseMembers: set<string> := {"jsonrpc", "result", "error", "id"}

  /** `params`, when present, must be an object or an array. */
  predicate ParamsOk(packet: Json) {
    !Has(packet, "params") || Get(packet, "params").JObject? || Get(packet, "params").JArray?
  }

  /** validateRequest. */
  predicate ValidateRequest(packet: Json, strict: bool) {
    && packet.JObject?
    && (Has(packet, "jsonrpc") || !strict)
    && Has(packet, "method")
    && Has(packet, "id")
    && Get(packet, "method").JString?
    && ParamsOk(packet)
    && IdShapeOk(Get(packet, "id"))
    && (!HasExtra(packet, RequestMembers) || !strict)
  }

  /** An error member must be an object with an integral code and a string message. */
  predicate ErrorObjectOk(error: Json) {
    error.JObject? && IsIntegral(Get(error, "code")) && Get(error, "message").JString?
  }

  /** validateResponse. */
  predicate ValidateResponse(packet: Json, strict: bool) {
    && packet.JObject?
    && (Has(packet, "jsonrpc") || !strict)
    && (Has(packet, "result") || Has(packet, "error"))
    && !(Has(packet, "result") && Has(packet, "error"))
    && Has(packet, "id")
    && (Has(packet, "error") ==> ErrorObjectOk(Get(packet, "error")))
    && IdShapeOk(Get(packet, "id"))
    && (!HasExtra(packet, ResponseMembers) || !strict)
  }

  /** validateNotification. */
  predicate ValidateNotification(packet: Json, strict: bool) {
    && packet.JObject?
    && (Has(packet, "jsonrpc") || !strict)
    && Has(packet, "method")
    && !Has(packet, "id")
    && Get(packet, "method").JString?
    && ParamsOk(packet)
    && (!HasExtra(packet, RequestMembers) || !strict)
  }

  /** Strict validation only adds rejections: a strictly valid packet is valid. */
  lemma StrictImpliesLoose(packet: Json)
    ensures ValidateRequest(packet, true) ==> ValidateRequest(packet, false)
    ensures ValidateResponse(packet, true) ==> ValidateResponse(packet, false)
    ensures ValidateNotification(packet, true) ==> ValidateNotification(packet, false)
  {
  }

  /**
   * The two rejections strict mode adds are the only difference: a loosely
   * valid packet that has a `jsonrpc` member and no extra members is
   * strictly valid.
   */
  lemma LooseWithoutExtrasIsStrict(packet: Json)
    requires Has(packet, "jsonrpc")
    ensures ValidateRequest(packet, false) && !HasExtra(packet, RequestMembers) ==> ValidateRequest(packet, true)
    ensures ValidateResponse(packet, false) && !HasExtra(packet, ResponseMembers) ==> ValidateResponse(packet, true)
    ensures ValidateNotification(packet, false) && !HasExtra(packet, RequestMembers) ==> ValidateNotification(packet, true)
  {
  }

  /** No packet is both a valid request and a valid notification. */
  lemma RequestNotificationExclusive(packet: Json, s1: bool, s2: bool)
    ensures !(ValidateRequest(packet, s1) && ValidateNotification(packet, s2))
  {
  }

  /** A valid response carries exactly one of `result` and `error`, and an `id`. */
  lemma ResponseHasExactlyOne(packet: Json, strict: bool)
    requires ValidateResponse(packet, strict)
    ensures Has(packet, "result") != Has(packet, "error")
    ensures Has(packet, "id")
  {
  }

  // ---- skeleton builders ----

  /** generateEmptyRequest: version, a null method and the id. */
  function EmptyRequest(id: IdType): (p: Json)
    ensures Keys(p) == {"jsonrpc", "method", "id"}
    ensures Get(p, "jsonrpc") == JString("2.0") && Get(p, "id") == JUInt(id)
  {
    JObject(map["jsonrpc" := JString("2.0"), "method" := JNull, "id" := JUInt(id)])
  }

  /**
   * generateEmptyResponse: version, a null result and the id (a packet id
   * written as an unsigned number, or the id a request arrived with).
   */
  function EmptyResponse(id: Json): (p: Json)
    ensures Keys(p) == {"jsonrpc", "result", "id"}
    ensures Get(p, "jsonrpc") == JString("2.0") && Get(p, "id") == id
  {
    JObject(map["jsonrpc" := JString("2.0"), "result" := JNull, "id" := id])
  }

  /**
   * generateEmptyError: version, the id, and a null error member (the
   * error object the function builds is never stored).
   */
  function EmptyError(id: Json): (p: Json)
    ensures Keys(p) == {"jsonrpc", "error", "id"}
    ensures Get(p, "jsonrpc") == JString("2.0") && Get(p, "id") == id && Get(p, "error") == JNull
  {
    JObject(map["jsonrpc" := JString("2.0"), "error" := JNull, "id" := id])
  }

  /** generateEmptyNotification: version and a null method, and never an id. */
  function EmptyNotification(): (p: Json)
    ensures Keys(p) == {"jsonrpc", "method"}
    ensures Get(p, "jsonrpc") == JString("2.0") && !Has(p, "id")
  {
    JObject(map["jsonrpc" := JString("2.0"), "method" := JNull])
  }

  /** A request skeleton is not valid until its method is filled in. */
  lemma EmptyRequestNeedsMethod(id: IdType)
    ensures !ValidateRequest(EmptyRequest(id), false)
  {
  }

  /** A request built on the skeleton with a method name and structured params is strictly valid. */
  lemma BuiltRequestIsValid(id: IdType, name: string, params: Json)
    requires params.JObject? || params.JArray?
    ensures ValidateRequest(Set(Set(EmptyRequest(id), "method", JString(name)), "params", params), true)
  {
    var p := Set(Set(EmptyRequest(id), "method", JString(name)), "params", params);
    assert Keys(p) == RequestMembers;
  }

  /** A notification built on the skeleton with a method name and structured params is strictly valid. */
  lemma BuiltNotificationIsValid(name: string, params: Json)
    requires params.JObject? || params.JArray?
    ensures ValidateNotification(Set(Set(EmptyNotification(), "method", JString(name)), "params", params), true)
  {
    var p := Set(Set(EmptyNotification(), "method", JString(name)), "params", params);
    assert Keys(p) == {"jsonrpc", "method", "params"};
  }

  /** A response built on the skeleton is strictly valid whatever its result. */
  lemma BuiltResponseIsValid(id: Json, result: Json)
    requires IdShapeOk(id)
    ensures ValidateResponse(Set(EmptyResponse(id), "result", result), true)
  {
    var p := Set(EmptyResponse(id), "result", result);
    assert Keys(p) == {"jsonrpc", "result", "id"};
  }

  /** An error reply filled with an integral code and a string message is strictly valid. */
  lemma BuiltErrorIsValid(id: Json, code: int, message: string)
    requires IdShapeOk(id)
    ensures ValidateResponse(Set(EmptyError(id), "error",
              Set(Set(Get(EmptyError(id), "error"), "code", JInt(code)), "message", JString(message))), true)
  {
    var p := Set(EmptyError(id), "error",
              Set(Set(Get(EmptyError(id), "error"), "code", JInt(code)), "message", JString(message)));
    assert Keys(p) == {"jsonrpc", "error", "id"};
  }
}
