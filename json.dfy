/**
 * The values the configuration reader works on once its text decoders have run:
 * JavaScript numbers and the JSON values that `JSON.parse` produces.
 */
module Json {

  /**
   * A JavaScript number. Finite doubles are seen as the reals they denote;
   * the three non-finite values are kept apart because validation treats
   * them differently from every finite number.
   */
  datatype JsNumber = Finite(value: real) | PositiveInfinity | NegativeInfinity | NaN

  /**
   * A decoded JSON value. An object is a map from its keys to their values.
   * This is a superset of what `JSON.parse` returns: a `JNumber` may hold NaN
   * or an infinity, which the decoder never produces.
   */
  datatype Json =
    | JNull
    | JBool(b: bool)
    | JNumber(n: JsNumber)
    | JString(s: string)
    | JArray(items: seq<Json>)
    | JObject(fields: map<string, Json>)

  /** The outcome of decoding raw environment text as JSON: a syntax error, or a value. */
  datatype JsonText = Malformed | WellFormed(value: Json)

  /** A JavaScript array of strings, seen as the JSON value it is. */
  function StringsToJson(ss: seq<string>): (r: seq<Json>)
  {
    seq(|ss|, i requires 0 <= i < |ss| => JString(ss[i]))
  }
}
