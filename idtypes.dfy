/**
 * Job and packet identifiers (molequeue/idtypeutils.h).
 *
 * An IdType is an unsigned 64-bit integer; its largest value is reserved as
 * InvalidId, which the conversions below never let through as a literal
 * number.
 */
module IdTypes {
  import opened Wrappers
  import opened JsonValue
  import opened QtVariant
  import opened TextOps

  const IdLimit: int := 0x1_0000_0000_0000_0000
  const Int64Min: int := -0x8000_0000_0000_0000
  const Int64Limit: int := 0x8000_0000_0000_0000

  type IdType = x: int | 0 <= x < IdLimit

  const InvalidId: IdType := IdLimit - 1

  /** A C++ static_cast of any integer to the unsigned 64-bit IdType. */
  function ToUnsigned64(v: int): (r: IdType)
    ensures 0 <= v < IdLimit ==> r == v
    ensures (r - v) % IdLimit == 0
  {
    v % IdLimit
  }

  // ---- decimal text ----

  predicate IsDigit(c: char) {
    '0' <= c <= '9'
  }

  predicate AllDigits(s: string) {
    forall i :: 0 <= i < |s| ==> IsDigit(s[i])
  }

  function DigitValue(c: char): (d: nat)
    requires IsDigit(c)
    ensures d < 10
  {
    (c as int) - ('0' as int)
  }

  function DigitChar(d: nat): (c: char)
    requires d < 10
    ensures IsDigit(c) && DigitValue(c) == d
  {
    (('0' as int) + d) as char
  }

  /** QString::number of a non-negative integer: its shortest decimal form. */
  function Decimal(n: nat): (s: string)
    ensures 1 <= |s| && AllDigits(s)
    ensures |s| > 1 ==> s[0] != '0'
    decreases n
  {
    if n < 10 then [DigitChar(n)] else Decimal(n / 10) + [DigitChar(n % 10)]
  }

  /** The number a non-empty run of decimal digits stands for. */
  function DigitsValue(s: string): nat
    requires AllDigits(s)
  {
    if s == [] then 0 else DigitsValue(s[..|s| - 1]) * 10 + DigitValue(s[|s| - 1])
  }

  lemma {:induction false} DecimalRoundTrip(n: nat)
    ensures DigitsValue(Decimal(n)) == n
  {
    if n >= 10 {
      var s := Decimal(n);
      assert s[..|s| - 1] == Decimal(n / 10);
      DecimalRoundTrip(n / 10);
    }
  }

  /** An optional sign followed by at least one digit: whether the sign is '-', and the digits' value. */
  function ReadNumber(t: string): (r: Option<(bool, nat)>)
    ensures r.Some? ==> t != []
  {
    var signed := |t| > 0 && (t[0] == '-' || t[0] == '+');
    var digits := if signed then t[1..] else t;
    if |digits| == 0 || !AllDigits(digits) then None
    else Some((signed && t[0] == '-', DigitsValue(digits)))
  }

  /**
   * How QString reads a base-10 number: white space is trimmed from both
   * ends, and what remains must be a sign and digits.
   */
  function ReadSigned(s: string): Option<(bool, nat)> {
    ReadNumber(Trimmed(s))
  }

  /** The number read, if it lies in the signed 64-bit range. */
  function InLongLong(read: Option<(bool, nat)>): (r: Option<int>)
    ensures r.Some? ==> Int64Min <= r.value < Int64Limit
    ensures r.Some? ==> read.Some? && r.value == (if read.value.0 then 0 - read.value.1 as int else read.value.1 as int)
  {
    match read
    case None => None
    case Some((negative, m)) =>
      var v: int := if negative then 0 - m else m;
      if Int64Min <= v < Int64Limit then Some(v) else None
  }

  /** QString::toLongLong in base 10. */
  function ToLongLong(s: string): Option<int> {
    InLongLong(ReadSigned(s))
  }

  /** The number read, if it has no '-' sign and lies in the 64-bit unsigned range. */
  function InULongLong(read: Option<(bool, nat)>): (r: Option<IdType>)
    ensures r.Some? ==> read.Some? && !read.value.0 && r.value == read.value.1
  {
    match read
    case None => None
    case Some((negative, m)) => if !negative && m < IdLimit then Some(m) else None
  }

  /** QString::toULongLong in base 10: a '-' sign fails, even on zero. */
  function ToULongLongText(s: string): Option<IdType> {
    InULongLong(ReadSigned(s))
  }

  /** Text that is a number without surrounding white space. */
  predicate Bare(t: string) {
    |t| > 0 && !IsSpace(t[0]) && !IsSpace(t[|t| - 1])
  }

  lemma {:induction false} BareTrimmed(t: string)
    requires Bare(t)
    ensures Trimmed(t) == t
  {
    assert TrimStart(t) == t;
    TrimEndOf(t, []);
    assert t + [] == t;
  }

  /** White space around a number does not change what QString reads. */
  lemma {:induction false} PaddedReadsAlike(pre: string, t: string, post: string)
    requires AllSpace(pre) && AllSpace(post) && Bare(t)
    ensures ReadSigned(pre + t + post) == ReadSigned(t)
    ensures ToLongLong(pre + t + post) == ToLongLong(t)
    ensures ToULongLongText(pre + t + post) == ToULongLongText(t)
  {
    var x := pre + t + post;
    assert x == pre + (t + post);
    TrimStartOf(pre, t + post);
    TrimEndOf(t, post);
    assert Trimmed(x) == t;
    BareTrimmed(t);
  }

  lemma ReadDigits(d: string)
    requires |d| > 0 && AllDigits(d)
    ensures ReadNumber(d) == Some((false, DigitsValue(d)))
    ensures ReadNumber("-" + d) == Some((true, DigitsValue(d)))
  {
    assert ("-" + d)[1..] == d;
  }

  /** Every decimal with an optional sign is read back as its value. */
  lemma {:induction false} SignedDecimalRead(negative: bool, n: nat)
    ensures ReadSigned((if negative then "-" else "") + Decimal(n)) == Some((negative, n))
  {
    var d := Decimal(n);
    var t := (if negative then "-" else "") + d;
    DecimalRoundTrip(n);
    ReadDigits(d);
    assert t[|t| - 1] == d[|d| - 1];
    assert t[0] == '-' || t[0] == d[0];
    BareTrimmed(t);
    assert !negative ==> t == d;
  }

  /** QString::number of a signed integer: a '-' for a negative value, then its shortest decimal. */
  function SignedDecimal(n: int): (s: string)
    ensures |s| >= 1
  {
    if n < 0 then "-" + Decimal(-n) else Decimal(n)
  }

  /** QString::number followed by toLongLong gives back every signed 64-bit value. */
  lemma SignedDecimalRoundTrip(n: int)
    requires Int64Min <= n < Int64Limit
    ensures ToLongLong(SignedDecimal(n)) == Some(n)
  {
    var m: nat := if n < 0 then -n else n;
    assert SignedDecimal(n) == (if n < 0 then "-" else "") + Decimal(m);
    SignedDecimalRead(n < 0, m);
  }

  /** idTypeToString: InvalidId is spelled "Invalid", every other id in decimal. */
  function IdTypeToString(id: IdType): (s: string)
    ensures s == "Invalid" <==> id == InvalidId
    ensures id != InvalidId ==> AllDigits(s) && DigitsValue(s) == id
  {
    if id != InvalidId then DecimalRoundTrip(id); Decimal(id) else "Invalid"
  }

  /** toIdType(QString): a parse failure gives InvalidId, a value is cast to 64 bits unsigned. */
  function StringToIdType(s: string): (id: IdType)
    ensures ToLongLong(s).None? ==> id == InvalidId
  {
    match ToLongLong(s)
    case Some(v) => ToUnsigned64(v)
    case None => InvalidId
  }

  /** Text that, once trimmed, does not start like a signed number is never read as an id. */
  lemma NonNumericIsInvalid(s: string)
    requires Trimmed(s) == [] || !(IsDigit(Trimmed(s)[0]) || Trimmed(s)[0] == '-' || Trimmed(s)[0] == '+')
    ensures StringToIdType(s) == InvalidId
  {
  }

  /** White space around an id does not change it: " 5 " reads as 5. */
  lemma PaddedIdReadsAlike(pre: string, t: string, post: string)
    requires AllSpace(pre) && AllSpace(post) && Bare(t)
    ensures StringToIdType(pre + t + post) == StringToIdType(t)
  {
    PaddedReadsAlike(pre, t, post);
  }

  lemma DecimalIdRead(id: IdType)
    requires id != InvalidId
    ensures ToLongLong(IdTypeToString(id)) == if id < Int64Limit then Some(id as int) else None
  {
    assert IdTypeToString(id) == "" + Decimal(id);
    SignedDecimalRead(false, id);
  }

  /** Text that starts with a letter is not a number, whatever follows. */
  lemma {:induction false} LetterFirstRead(t: string)
    requires Bare(t) && t[0] == 'I'
    ensures ToLongLong(t) == None
  {
    BareTrimmed(t);
  }

  /**
   * The string round trip holds exactly for InvalidId and for the ids that
   * fit a signed 64-bit integer; larger ids are refused by toLongLong.
   */
  lemma StringRoundTrip(id: IdType)
    ensures StringToIdType(IdTypeToString(id)) == id <==> (id == InvalidId || id < Int64Limit)
  {
    if id != InvalidId {
      DecimalIdRead(id);
    } else {
      LetterFirstRead(IdTypeToString(id));
    }
  }

  /** Json::Value::asLargestInt: integers within the signed 64-bit range; None where JsonCpp throws. */
  function AsLargestInt(v: Json): (r: Option<int>)
    ensures v.JInt? ==> r == Some(v.i)
    ensures v.JUInt? ==> (r.Some? <==> v.u < Int64Limit)
    ensures v.JUInt? && r.Some? ==> r.value == v.u
  {
    match v
    case JInt(i) => Some(i)
    case JUInt(u) => if u < Int64Limit then Some(u) else None
    case JNull => Some(0)
    case JBool(b) => Some(if b then 1 else 0)
    case JReal(r) => if Int64Min as real <= r < Int64Limit as real then Some(Truncate(r)) else None
    case _ => None
  }

  /**
   * toIdType(Json::Value): an integral value is read with asLargestInt and
   * cast to 64 bits unsigned, anything else is InvalidId. None stands for
   * the throw of asLargestInt on an unsigned value from 2^63 up.
   */
  function JsonToIdType(j: Json): (id: Option<IdType>)
    ensures !IsIntegral(j) ==> id == Some(InvalidId)
    ensures IsIntegral(j) && 0 <= IntegralValue(j) < Int64Limit ==> id == Some(IntegralValue(j))
    ensures j.JUInt? && j.u >= Int64Limit ==> id.None?
  {
    if IsIntegral(j) then
      match AsLargestInt(j)
      case Some(n) => Some(ToUnsigned64(n))
      case None => None
    else Some(InvalidId)
  }

  /** idTypeToJson: InvalidId becomes null, every other id an unsigned integer. */
  function IdTypeToJson(id: IdType): (j: Json)
    ensures j == JNull <==> id == InvalidId
    ensures j != JNull ==> IsIntegral(j) && IntegralValue(j) == id
  {
    if id != InvalidId then JUInt(id) else JNull
  }

  /**
   * The JsonCpp round trip gives the id back exactly for InvalidId and the
   * ids below 2^63; every larger id is written as an unsigned value on
   * which asLargestInt throws.
   */
  lemma JsonRoundTrip(id: IdType)
    ensures JsonToIdType(IdTypeToJson(id)) == Some(id) <==> (id == InvalidId || id < Int64Limit)
    ensures id != InvalidId && id >= Int64Limit ==> JsonToIdType(IdTypeToJson(id)).None?
  {
  }

  /**
   * toIdType(QJsonValue), the overload the application's settings code
   * calls: QJsonValue keeps every number as a double, which is rounded by
   * adding 0.5 and truncating; anything that is not a number is InvalidId.
   */
  function QJsonToIdType(j: Json): (id: IdType)
    ensures !IsNumeric(j) ==> id == InvalidId
    ensures IsNumeric(j) && 0.0 <= ToReal(j) && ToReal(j) + 0.5 < IdLimit as real ==>
              id as real <= ToReal(j) + 0.5 < id as real + 1.0
  {
    if IsNumeric(j) then ToUnsigned64(Truncate(ToReal(j) + 0.5)) else InvalidId
  }

  /** idTypeToJson(QJsonValue): InvalidId becomes null, every other id a double. */
  function IdTypeToQJson(id: IdType): (j: Json)
    ensures j == JNull <==> id == InvalidId
    ensures j != JNull ==> j.JReal? && j.r == id as real
  {
    if id != InvalidId then JReal(id as real) else JNull
  }

  /** Every id survives the QJsonValue round trip (doubles taken as exact). */
  lemma QJsonRoundTrip(id: IdType)
    ensures QJsonToIdType(IdTypeToQJson(id)) == id
  {
  }

  /** A number stored as an integer and the same number stored as a double read as the same id. */
  lemma QJsonReadsIntegers(j: Json)
    requires IsIntegral(j) && 0 <= IntegralValue(j) < IdLimit
    ensures QJsonToIdType(j) == IntegralValue(j)
    ensures QJsonToIdType(JReal(IntegralValue(j) as real)) == IntegralValue(j)
  {
  }

  /** qRound64: round half up. */
  function Round64(d: real): int {
    (d + 0.5).Floor
  }

  /**
   * toIdType(QVariant): variants that cannot convert to an unsigned 64-bit
   * integer give InvalidId; numbers are cast, booleans give 0 or 1, and text
   * is read by QString::toULongLong, where a failure converts to 0.
   */
  function VariantToIdType(v: Variant): (id: IdType)
    ensures v.VInvalid? || v.VList? || v.VHash? || v.VOther? ==> id == InvalidId
    ensures v.VULongLong? && v.ull < IdLimit ==> id == v.ull
  {
    match v
    case VInvalid => InvalidId
    case VBool(b) => if b then 1 else 0
    case VInt(i) => ToUnsigned64(i)
    case VUInt(u) => ToUnsigned64(u)
    case VLongLong(ll) => ToUnsigned64(ll)
    case VULongLong(ull) => ToUnsigned64(ull)
    case VDouble(d) => ToUnsigned64(Round64(d))
    case VString(s) => TextToIdType(s)
    case VByteArray(s) => TextToIdType(s)
    case VList(_) => InvalidId
    case VHash(_) => InvalidId
    case VOther => InvalidId
  }

  /** A text variant converted to 64 bits unsigned: the value toULongLong reads, or 0. */
  function TextToIdType(s: string): (id: IdType)
    ensures ToULongLongText(s).None? ==> id == 0
  {
    match ToULongLongText(s)
    case Some(v) => v
    case None => 0
  }

  /** idTypeToVariant: InvalidId becomes an invalid QVariant, every other id a ULongLong. */
  function IdTypeToVariant(id: IdType): (v: Variant)
    ensures v.VInvalid? <==> id == InvalidId
    ensures !v.VInvalid? ==> v == VULongLong(id)
  {
    if id != InvalidId then VULongLong(id) else VInvalid
  }

  lemma VariantRoundTrip(id: IdType)
    ensures VariantToIdType(IdTypeToVariant(id)) == id
  {
  }
}
