/**
 * The QVariant values the program converts to and from JSON and job
 * hashes. Only the variant types the conversions look at are kept apart;
 * every other type is `VOther`.
 */
module QtVariant {

  datatype Variant =
    | VInvalid                          // QVariant(): no type at all
    | VBool(b: bool)
    | VInt(i: int)                      // QVariant::Int (32-bit signed)
    | VUInt(u: nat)                     // QVariant::UInt (32-bit unsigned)
    | VLongLong(ll: int)                // QVariant::LongLong (64-bit signed)
    | VULongLong(ull: nat)              // QVariant::ULongLong (64-bit unsigned)
    | VDouble(d: real)
    | VString(s: string)
    | VByteArray(bytes: seq<char>)
    | VList(items: seq<Variant>)
    | VHash(entries: map<string, Variant>)
    | VOther                            // any other QVariant type

  /** QVariantHash::value: a missing key reads as an invalid variant. */
  function Lookup(h: map<string, Variant>, key: string): Variant {
    if key in h then h[key] else VInvalid
  }
}
