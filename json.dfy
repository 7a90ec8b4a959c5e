/** JSON values and the keyed-container reads of Foundation's `JSONDecoder` that the
    `Codable` conformances use: `decode(_:forKey:)` and `decodeIfPresent(_:forKey:)`. */
module JsonCoding {
  import opened Wrappers
  import opened Notes

  datatype Json = JNull | JBool(b: bool) | JNumber(n: real) | JString(s: string)
    | JArray(items: seq<Json>) | JObject(fields: map<string, Json>)

  /** A keyed container: an object's entries, looked up by the type's `CodingKeys` case
      (each case stands for the JSON key spelled by its string value). */
  type Container<K> = map<K, Json>

  /** `DecodingError`, by kind and the key it concerns. */
  datatype DecodeError<K> =
    | KeyNotFound(key: K)
    | ValueNotFound(key: K)
    | TypeMismatch(key: K)
    | DataCorrupted(key: K)

  type Decoded<T, K> = Result<T, DecodeError<K>>

  predicate IsIntegral(n: real) {
    n.Floor as real == n
  }

  /** A required `Double`: the key must be present and hold a number. */
  function DecodeNumber<K>(o: Container<K>, key: K): (r: Decoded<real, K>)
    ensures r.Success? <==> key in o && o[key].JNumber?
    ensures r.Success? ==> o[key] == JNumber(r.value)
    ensures key !in o ==> r == Failure(KeyNotFound(key))
  {
    if key !in o then Failure(KeyNotFound(key))
    else match o[key]
      case JNull => Failure(ValueNotFound(key))
      case JNumber(n) => Success(n)
      case _ => Failure(TypeMismatch(key))
  }

  /** A required `Int`: a number with no fractional part. */
  function DecodeInteger<K>(o: Container<K>, key: K): (r: Decoded<int, K>)
    ensures r.Success? <==> key in o && o[key].JNumber? && IsIntegral(o[key].n)
    ensures r.Success? ==> o[key] == JNumber(r.value as real)
    ensures key !in o ==> r == Failure(KeyNotFound(key))
  {
    var n :- DecodeNumber(o, key);
    if IsIntegral(n) then Success(n.Floor) else Failure(DataCorrupted(key))
  }

  /** A required `UInt8`: a whole number in 0...255; any other number does not fit. */
  function DecodeByte<K>(o: Container<K>, key: K): (r: Decoded<Byte, K>)
    ensures r.Success? <==>
      key in o && o[key].JNumber? && IsIntegral(o[key].n) && 0.0 <= o[key].n <= 255.0
    ensures r.Success? ==> o[key] == JNumber(r.value as real)
    ensures key !in o ==> r == Failure(KeyNotFound(key))
  {
    var i :- DecodeInteger(o, key);
    if 0 <= i <= 255 then Success(i) else Failure(DataCorrupted(key))
  }

  /** A required `String`. */
  function DecodeString<K>(o: Container<K>, key: K): (r: Decoded<string, K>)
    ensures r.Success? <==> key in o && o[key].JString?
    ensures r.Success? ==> o[key] == JString(r.value)
    ensures key !in o ==> r == Failure(KeyNotFound(key))
  {
    if key !in o then Failure(KeyNotFound(key))
    else match o[key]
      case JNull => Failure(ValueNotFound(key))
      case JString(s) => Success(s)
      case _ => Failure(TypeMismatch(key))
  }

  /** A required `Bool`. */
  function DecodeBool<K>(o: Container<K>, key: K): (r: Decoded<bool, K>)
    ensures r.Success? <==> key in o && o[key].JBool?
    ensures r.Success? ==> o[key] == JBool(r.value)
    ensures key !in o ==> r == Failure(KeyNotFound(key))
  {
    if key !in o then Failure(KeyNotFound(key))
    else match o[key]
      case JNull => Failure(ValueNotFound(key))
      case JBool(b) => Success(b)
      case _ => Failure(TypeMismatch(key))
  }

  /** An optional `String`: nil when the key is absent or holds null. */
  function DecodeStringIfPresent<K>(o: Container<K>, key: K): (r: Decoded<Option<string>, K>)
    ensures (key !in o || o[key] == JNull) ==> r == Success(None)
    ensures r.Success? && r.value.Some? ==> key in o && o[key] == JString(r.value.value)
    ensures r.Failure? <==> key in o && !o[key].JNull? && !o[key].JString?
  {
    if key !in o then Success(None)
    else match o[key]
      case JNull => Success(None)
      case JString(s) => Success(Some(s))
      case _ => Failure(TypeMismatch(key))
  }

  /** `encodeIfPresent`: an optional string adds its key only when it has a value. */
  function EncodeStringIfPresent<K>(o: Container<K>, key: K, v: Option<string>): (r: Container<K>)
    ensures v.None? ==> r == o
    ensures v.Some? ==> r == o[key := JString(v.value)]
  {
    match v
    case None => o
    case Some(s) => o[key := JString(s)]
  }

  /** Reading back what `encodeIfPresent` wrote gives the optional back; a key absent before
      writing stays absent when the value is nil. */
  lemma StringIfPresentRoundTrip<K>(o: Container<K>, key: K, v: Option<string>)
    requires key !in o
    ensures DecodeStringIfPresent(EncodeStringIfPresent(o, key, v), key) == Success(v)
  {
  }

  /** Writing a whole number and reading it back as an `Int` or a `UInt8` gives it back. */
  lemma IntegerRoundTrip<K>(o: Container<K>, key: K, i: int)
    ensures DecodeInteger(o[key := JNumber(i as real)], key) == Success(i)
    ensures 0 <= i <= 255 ==> DecodeByte(o[key := JNumber(i as real)], key) == Success(i)
  {
    assert IsIntegral(i as real);
  }
}
