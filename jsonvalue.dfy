/**
 * The JSON values that the JSON-RPC layer reads and writes.
 *
 * One datatype stands for both JSON libraries the program uses (JsonCpp's
 * Json::Value and Qt's QJsonValue). JsonCpp keeps signed and unsigned
 * integers apart (intValue, uintValue), so the model does too. Objects are
 * maps: both libraries keep one value per member name.
 */
module JsonValue {

  datatype Json =
    | JNull
    | JBool(b: bool)
    | JInt(i: int)
    | JUInt(u: nat)
    | JReal(r: real)
    | JString(s: string)
    | JArray(items: seq<Json>)
    | JObject(members: map<string, Json>)

  /** Json::Value::isIntegral: a signed or unsigned integer. */
  predicate IsIntegral(v: Json) {
    v.JInt? || v.JUInt?
  }

  /** Json::Value::isNumeric, and QJsonValue::isDouble: any number. */
  predicate IsNumeric(v: Json) {
    v.JInt? || v.JUInt? || v.JReal?
  }

  /** The value of an integral number. */
  function IntegralValue(v: Json): int
    requires IsIntegral(v)
  {
    if v.JInt? then v.i else v.u
  }

  /** True when `v` is an object that has a member called `key`. */
  predicate Has(v: Json, key: string) {
    v.JObject? && key in v.members
  }

  /**
   * Reading a member: a missing member, or any member of a value that is
   * not an object, reads as null (JsonCpp's const operator[]; QJsonObject's
   * undefined value answers false to every isX test just as null does).
   */
  function Get(v: Json, key: string): (r: Json)
    ensures !Has(v, key) ==> r == JNull
    ensures Has(v, key) ==> r == v.members[key]
  {
    if v.JObject? && key in v.members then v.members[key] else JNull
  }

  /**
   * Whether JsonCpp's operator[] can read a member of the value: it can for
   * an object and for null, and asserts on any other value.
   */
  predicate MembersReadable(v: Json) {
    v.JObject? || v.JNull?
  }

  /** The member names of an object; empty for any other value. */
  function Keys(v: Json): set<string> {
    if v.JObject? then v.members.Keys else {}
  }

  /** QJsonValue::toDouble of a number, 0 for anything else. */
  function ToReal(v: Json): real {
    match v
    case JInt(i) => i as real
    case JUInt(u) => u as real
    case JReal(r) => r
    case _ => 0.0
  }

  /** static_cast<int> of a double: truncation toward zero. */
  function Truncate(x: real): (n: int)
    ensures x >= 0.0 ==> n as real <= x < n as real + 1.0
    ensures x < 0.0 ==> n as real - 1.0 < x <= n as real
  {
    if x >= 0.0 then x.Floor else -((-x).Floor)
  }

  /**
   * Writing a member (`v[key] = value`): a null value first becomes an
   * empty object, as JsonCpp's non-const operator[] does.
   */
  function Set(v: Json, key: string, value: Json): (r: Json)
    ensures r.JObject? && Get(r, key) == value
    ensures Keys(r) == Keys(v) + {key}
    ensures forall k :: k != key && Has(v, k) ==> Get(r, k) == Get(v, k)
  {
    JObject((if v.JObject? then v.members else map[])[key := value])
  }

  /** The empty object, `{}`. */
  const EmptyObject: Json := JObject(map[])
}
