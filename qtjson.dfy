/**
 * Conversion between QVariant and JSON values (molequeue/qtjson.cpp).
 * Both directions are structural recursions: lists and arrays element by
 * element in order, hashes and objects member by member.
 */
module QtJson {
  import opened JsonValue
  import opened QtVariant

  /** The text of a byte array up to its first NUL, as a C string reads it. */
  function CString(bytes: seq<char>): (s: seq<char>)
    ensures |s| <= |bytes| && s == bytes[..|s|]
    ensures '\0' !in s
    ensures |s| < |bytes| ==> bytes[|s|] == '\0'
  {
    if bytes == [] || bytes[0] == '\0' then [] else [bytes[0]] + CString(bytes[1..])
  }

  /** qtToJson: unsupported variant types (including an invalid variant) become null. */
  function QtToJson(v: Variant): (j: Json)
    ensures v.VList? ==> j.JArray? && |j.items| == |v.items|
    ensures v.VHash? ==> j.JObject? && j.members.Keys == v.entries.Keys
    ensures v.VInvalid? || v.VOther? ==> j == JNull
  {
    match v
    case VList(items) => JArray(seq(|items|, i requires 0 <= i < |items| => QtToJson(items[i])))
    case VHash(entries) => JObject(map k | k in entries :: QtToJson(entries[k]))
    case VBool(b) => JBool(b)
    case VInt(i) => JInt(i)
    case VLongLong(ll) => JInt(ll)
    case VUInt(u) => JUInt(u)
    case VULongLong(ull) => JUInt(ull)
    case VDouble(d) => JReal(d)
    case VString(s) => JString(s)
    case VByteArray(bytes) => JString(CString(bytes))
    case VInvalid => JNull
    case VOther => JNull
  }

  /** jsonToQt: signed integers widen to LongLong, unsigned ones to ULongLong, null to an invalid variant. */
  function JsonToQt(j: Json): (v: Variant)
    ensures j.JArray? ==> v.VList? && |v.items| == |j.items|
    ensures j.JObject? ==> v.VHash? && v.entries.Keys == j.members.Keys
    ensures j.JNull? <==> v.VInvalid?
  {
    match j
    case JArray(items) => VList(seq(|items|, i requires 0 <= i < |items| => JsonToQt(items[i])))
    case JObject(members) => VHash(map k | k in members :: JsonToQt(members[k]))
    case JInt(i) => VLongLong(i)
    case JUInt(u) => VULongLong(u)
    case JReal(r) => VDouble(r)
    case JString(s) => VString(s)
    case JBool(b) => VBool(b)
    case JNull => VInvalid
  }

  /** Variants the conversion handles without loss of structure. */
  predicate Convertible(v: Variant) {
    match v
    case VList(items) => forall i :: 0 <= i < |items| ==> Convertible(items[i])
    case VHash(entries) => forall k :: k in entries ==> Convertible(entries[k])
    case VByteArray(_) => false
    case VOther => false
    case _ => true
  }

  /** What a convertible variant becomes after a trip through JSON: 32-bit integers widen to 64 bits. */
  function Widened(v: Variant): Variant {
    match v
    case VList(items) => VList(seq(|items|, i requires 0 <= i < |items| => Widened(items[i])))
    case VHash(entries) => VHash(map k | k in entries :: Widened(entries[k]))
    case VInt(i) => VLongLong(i)
    case VUInt(u) => VULongLong(u)
    case _ => v
  }

  lemma {:induction false} VariantRoundTrip(v: Variant)
    requires Convertible(v)
    ensures JsonToQt(QtToJson(v)) == Widened(v)
  {
    match v
    case VList(items) =>
      var back := JsonToQt(QtToJson(v)).items;
      forall i | 0 <= i < |items| ensures back[i] == Widened(v).items[i] {
        VariantRoundTrip(items[i]);
      }
      assert back == Widened(v).items;
    case VHash(entries) =>
      var back := JsonToQt(QtToJson(v)).entries;
      forall k | k in entries ensures back[k] == Widened(v).entries[k] {
        VariantRoundTrip(entries[k]);
      }
      assert back == Widened(v).entries;
    case _ =>
  }

  lemma {:induction false} JsonRoundTrip(j: Json)
    ensures QtToJson(JsonToQt(j)) == j
  {
    match j
    case JArray(items) =>
      forall i | 0 <= i < |items| ensures QtToJson(JsonToQt(items[i])) == items[i] {
        JsonRoundTrip(items[i]);
      }
    case JObject(members) =>
      forall k | k in members ensures QtToJson(JsonToQt(members[k])) == members[k] {
        JsonRoundTrip(members[k]);
      }
    case _ =>
  }
}
