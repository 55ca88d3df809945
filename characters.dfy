/**
 * Startup configuration of the URL shortener: the alphabet of short IDs, the
 * length of a generated ID and the URL rewrites, each read from an optional
 * environment setting, validated, and defaulted when the setting is absent.
 */
module Characters {
  import opened Wrappers
  import opened Json

  /**
   * The built-in alphabet, entry for entry as the source table lists it,
   * written as its three runs: lower-case letters, upper-case letters,
   * digits. Its doc comment promises every ASCII letter and digit; the
   * table itself has "z" where "s" belongs (and "Z" where "S" belongs), so
   * "s" and "S" are missing, "z" and "Z" occur twice, and "x" comes before
   * "w" (and "X" before "W").
   */
  const AlphaNumeric: seq<string> := LowerCaseRun + UpperCaseRun + DigitRun

  const LowerCaseRun: seq<string> := [
    "a", "b", "c", "d", "e", "f", "g", "h", "i", "j", "k", "l", "m",
    "n", "o", "p", "q", "r", "z", "t", "u", "v", "x", "w", "y", "z"
  ]

  const UpperCaseRun: seq<string> := [
    "A", "B", "C", "D", "E", "F", "G", "H", "I", "J", "K", "L", "M",
    "N", "O", "P", "Q", "R", "Z", "T", "U", "V", "X", "W", "Y", "Z"
  ]

  const DigitRun: seq<string> := ["1", "2", "3", "4", "5", "6", "7", "8", "9", "0"]

  /** The three settings, named after their environment variables. */
  datatype Setting = ShortChars | ShortLength | ShortRewrites

  /** Why reading the configuration stopped, and at which setting. */
  datatype Error =
    | JsonSyntaxError(setting: Setting)   // the setting's text is not JSON
    | ValidationError(setting: Setting)   // the decoded value breaks its schema

  /**
   * The environment as the reader sees it: SHORT_CHARS and SHORT_REWRITES
   * already run through the JSON decoder, SHORT_LENGTH already converted to
   * a number. `None` is an unset variable.
   */
  datatype Env = Env(
    shortChars: Option<JsonText>,
    shortLength: Option<JsNumber>,
    shortRewrites: Option<JsonText>)

  /** The resolved configuration. */
  datatype Config = Config(characters: seq<string>, length: nat, rewrites: map<string, string>)

  // ---------------------------------------------------------------------------
  // The acceptance rules, stated directly on values
  // ---------------------------------------------------------------------------

  /** A JSON string with at least one character. */
  predicate IsNonEmptyString(j: Json) {
    j.JString? && |j.s| >= 1
  }

  /** What the alphabet schema accepts: an array of at least one non-empty string. */
  predicate IsCharactersValue(j: Json) {
    && j.JArray?
    && |j.items| >= 1
    && forall i :: 0 <= i < |j.items| ==> IsNonEmptyString(j.items[i])
  }

  /** What the length schema accepts: a number that is an integer and greater than 0. */
  predicate IsLengthValue(n: JsNumber) {
    n.Finite? && n.value.Floor as real == n.value && n.value > 0.0
  }

  /** What the rewrites schema accepts: an object whose every value is a non-empty string. */
  predicate IsRewritesValue(j: Json) {
    j.JObject? && forall k :: k in j.fields ==> IsNonEmptyString(j.fields[k])
  }

  /** An alphabet: at least one symbol, and no empty symbol. */
  predicate IsAlphabet(ss: seq<string>) {
    |ss| >= 1 && forall i :: 0 <= i < |ss| ==> |ss[i]| >= 1
  }

  /** A rewrite map: every replacement is non-empty. */
  predicate IsRewriteMap(m: map<string, string>) {
    forall k :: k in m ==> |m[k]| >= 1
  }

  // ---------------------------------------------------------------------------
  // The schemas
  // ---------------------------------------------------------------------------

  /**
   * The element schema of the alphabet applied to every item in turn: the
   * strings, in order, when every item is a non-empty string.
   */
  function StringItems(items: seq<Json>): (r: Option<seq<string>>)
    ensures r.Some? <==> forall i :: 0 <= i < |items| ==> IsNonEmptyString(items[i])
    ensures r.Some? ==> |r.value| == |items| && forall i :: 0 <= i < |items| ==> items[i] == JString(r.value[i])
  {
    if items == [] then Some([])
    else if !IsNonEmptyString(items[0]) then None
    else
      match StringItems(items[1..])
      case None => None
      case Some(rest) => Some([items[0].s] + rest)
  }

  /** The alphabet schema: an array, at least one element, every element a non-empty string. */
  function CharactersSchema(data: Json): (r: Result<seq<string>, Error>)
    ensures r.Ok? <==> IsCharactersValue(data)
    ensures r.Ok? ==> data == JArray(StringsToJson(r.value)) && IsAlphabet(r.value)
    ensures r.Err? ==> r.error == ValidationError(ShortChars)
  {
    if !data.JArray? || |data.items| < 1 then Err(ValidationError(ShortChars))
    else
      match StringItems(data.items)
      case None => Err(ValidationError(ShortChars))
      case Some(ss) =>
        assert data.items == StringsToJson(ss);
        Ok(ss)
  }

  /**
   * The length schema, check by check: a number (NaN is refused), an integer
   * (the infinities and fractions are refused), positive (0, -0 and negatives
   * are refused).
   */
  function LengthSchema(data: JsNumber): (r: Result<nat, Error>)
    ensures r.Ok? <==> IsLengthValue(data)
    ensures r.Ok? ==> r.value > 0 && data == Finite(r.value as real)
    ensures r.Err? ==> r.error == ValidationError(ShortLength)
  {
    match data
    case NaN => Err(ValidationError(ShortLength))
    case PositiveInfinity => Err(ValidationError(ShortLength))
    case NegativeInfinity => Err(ValidationError(ShortLength))
    case Finite(x) =>
      if x.Floor as real != x then Err(ValidationError(ShortLength))
      else if x <= 0.0 then Err(ValidationError(ShortLength))
      else Ok(x.Floor)
  }

  /** The rewrites schema: an object, every value a non-empty string, kept under its key. */
  function RewritesSchema(data: Json): (r: Result<map<string, string>, Error>)
    ensures r.Ok? <==> IsRewritesValue(data)
    ensures r.Ok? ==> r.value.Keys == data.fields.Keys
    ensures r.Ok? ==> forall k :: k in r.value ==> data.fields[k] == JString(r.value[k])
    ensures r.Ok? ==> IsRewriteMap(r.value)
    ensures r.Err? ==> r.error == ValidationError(ShortRewrites)
  {
    if !data.JObject? then Err(ValidationError(ShortRewrites))
    else if exists k :: k in data.fields && !IsNonEmptyString(data.fields[k]) then Err(ValidationError(ShortRewrites))
    else Ok(map k | k in data.fields :: data.fields[k].s)
  }

  // ---------------------------------------------------------------------------
  // The three settings: decode, default, validate
  // ---------------------------------------------------------------------------

  /**
   * SHORT_CHARS: unset means the built-in table, which is itself passed
   * through the schema; set means its decoded JSON, which must pass the schema.
   */
  function ResolveCharacters(raw: Option<JsonText>): (r: Result<seq<string>, Error>)
    ensures raw.None? ==> r == Ok(AlphaNumeric)
    ensures raw == Some(Malformed) ==> r == Err(JsonSyntaxError(ShortChars))
    ensures raw.Some? && raw.value.WellFormed? ==>
      && (r.Ok? <==> IsCharactersValue(raw.value.value))
      && (r.Ok? ==> raw.value.value == JArray(StringsToJson(r.value)))
      && (r.Err? ==> r.error == ValidationError(ShortChars))
    ensures r.Ok? ==> IsAlphabet(r.value)
  {
    match raw
    case None =>
      DefaultTableIsAlphabet();
      var r := CharactersSchema(JArray(StringsToJson(AlphaNumeric)));
      assert r.Ok?;
      StringsToJsonInjective(r.value, AlphaNumeric);
      r
    case Some(Malformed) => Err(JsonSyntaxError(ShortChars))
    case Some(WellFormed(j)) => CharactersSchema(j)
  }

  /**
   * SHORT_LENGTH: unset means `fallback`, the length derived from the
   * alphabet, which is itself passed through the schema; set means the
   * converted number, which must pass the schema.
   */
  function ResolveLength(raw: Option<JsNumber>, fallback: JsNumber): (r: Result<nat, Error>)
    ensures raw.None? ==> (r.Ok? <==> IsLengthValue(fallback))
    ensures raw.None? && r.Ok? ==> fallback == Finite(r.value as real)
    ensures raw.Some? ==> (r.Ok? <==> IsLengthValue(raw.value))
    ensures raw.Some? && r.Ok? ==> raw.value == Finite(r.value as real)
    ensures r.Ok? ==> r.value > 0
    ensures r.Err? ==> r.error == ValidationError(ShortLength)
  {
    match raw
    case None => LengthSchema(fallback)
    case Some(n) => LengthSchema(n)
  }

  /**
   * SHORT_REWRITES: unset means the empty object; set means its decoded
   * JSON, which must pass the schema.
   */
  function ResolveRewrites(raw: Option<JsonText>): (r: Result<map<string, string>, Error>)
    ensures raw.None? ==> r == Ok(map[])
    ensures raw == Some(Malformed) ==> r == Err(JsonSyntaxError(ShortRewrites))
    ensures raw.Some? && raw.value.WellFormed? ==>
      && (r.Ok? <==> IsRewritesValue(raw.value.value))
      && (r.Ok? ==> r.value.Keys == raw.value.value.fields.Keys)
      && (r.Ok? ==> forall k :: k in r.value ==> raw.value.value.fields[k] == JString(r.value[k]))
      && (r.Err? ==> r.error == ValidationError(ShortRewrites))
    ensures r.Ok? ==> IsRewriteMap(r.value)
  {
    match raw
    case None => RewritesSchema(JObject(map[]))
    case Some(Malformed) => Err(JsonSyntaxError(ShortRewrites))
    case Some(WellFormed(j)) => RewritesSchema(j)
  }

  // ---------------------------------------------------------------------------
  // The whole reader
  // ---------------------------------------------------------------------------

  /** SHORT_CHARS is acceptable: unset, or JSON that the alphabet schema accepts. */
  predicate CharactersAccepted(raw: Option<JsonText>) {
    raw.None? || (raw.value.WellFormed? && IsCharactersValue(raw.value.value))
  }

  /** The size of the alphabet an acceptable SHORT_CHARS resolves to. */
  function AlphabetSize(raw: Option<JsonText>): nat
    requires CharactersAccepted(raw)
  {
    if raw.None? then |AlphaNumeric| else |raw.value.value.items|
  }

  /** SHORT_LENGTH is acceptable: the number, or the default for an alphabet of `size`, is a positive integer. */
  predicate LengthAccepted(raw: Option<JsNumber>, size: nat, defaultLength: nat -> JsNumber) {
    match raw
    case None => IsLengthValue(defaultLength(size))
    case Some(n) => IsLengthValue(n)
  }

  /** SHORT_REWRITES is acceptable: unset, or JSON that the rewrites schema accepts. */
  predicate RewritesAccepted(raw: Option<JsonText>) {
    raw.None? || (raw.value.WellFormed? && IsRewritesValue(raw.value.value))
  }

  /** Every setting of `env` is acceptable. */
  predicate Accepted(env: Env, defaultLength: nat -> JsNumber) {
    && CharactersAccepted(env.shortChars)
    && LengthAccepted(env.shortLength, AlphabetSize(env.shortChars), defaultLength)
    && RewritesAccepted(env.shortRewrites)
  }

  /**
   * Reads the configuration from `env`. `defaultLength(n)` is the default ID
   * length for an alphabet of n symbols: round(ln(1e9) / ln(n)) in floating
   * point, so that n^length is about the one billion short URLs the service
   * sizes its IDs for. The first setting that fails stops the whole read.
   */
  function Parse(env: Env, defaultLength: nat -> JsNumber): (r: Result<Config, Error>)
    ensures r.Ok? <==> Accepted(env, defaultLength)
    ensures r.Ok? ==> IsAlphabet(r.value.characters) && r.value.length > 0 && IsRewriteMap(r.value.rewrites)
  {
    var characters :- ResolveCharacters(env.shortChars);
    var length :- ResolveLength(env.shortLength, defaultLength(|characters|));
    var rewrites :- ResolveRewrites(env.shortRewrites);
    Ok(Config(characters, length, rewrites))
  }

  // ---------------------------------------------------------------------------
  // Lemmas
  // ---------------------------------------------------------------------------

  /** A character the pattern /^[a-z\d]$/i accepts. */
  predicate IsAsciiAlphaNumeric(c: char) {
    'a' <= c <= 'z' || 'A' <= c <= 'Z' || '0' <= c <= '9'
  }

  /** The built-in table has 62 entries, each a single ASCII letter or digit. */
  lemma DefaultTableShape()
    ensures |AlphaNumeric| == 62
    ensures forall i :: 0 <= i < |AlphaNumeric| ==> |AlphaNumeric[i]| == 1 && IsAsciiAlphaNumeric(AlphaNumeric[i][0])
  {
  }

  /**
   * The table is not every ASCII letter and digit, as its doc comment says:
   * "s" and "S" are missing, "z" and "Z" appear twice, and "x", "X" come
   * before "w", "W".
   */
  lemma DefaultTableAsWritten()
    ensures IsAsciiAlphaNumeric('s') && "s" !in AlphaNumeric
    ensures IsAsciiAlphaNumeric('S') && "S" !in AlphaNumeric
    ensures AlphaNumeric[18] == AlphaNumeric[25] == "z"
    ensures AlphaNumeric[44] == AlphaNumeric[51] == "Z"
    ensures AlphaNumeric[22] == "x" && AlphaNumeric[23] == "w"
    ensures AlphaNumeric[48] == "X" && AlphaNumeric[49] == "W"
  {
    // Each run is checked on its own: first characters, then whole entries.
    assert forall i :: 0 <= i < |LowerCaseRun| ==> |LowerCaseRun[i]| == 1 && LowerCaseRun[i][0] != 's' && LowerCaseRun[i][0] != 'S' by {}
    assert forall i :: 0 <= i < |UpperCaseRun| ==> |UpperCaseRun[i]| == 1 && UpperCaseRun[i][0] != 's' && UpperCaseRun[i][0] != 'S' by {}
    assert forall i :: 0 <= i < |DigitRun| ==> |DigitRun[i]| == 1 && DigitRun[i][0] != 's' && DigitRun[i][0] != 'S' by {}
    forall i | 0 <= i < |AlphaNumeric| ensures AlphaNumeric[i] != "s" && AlphaNumeric[i] != "S" {
      assert |AlphaNumeric[i]| == 1 && AlphaNumeric[i][0] != 's' && AlphaNumeric[i][0] != 'S';
    }
  }

  /** Hence the built-in table passes the alphabet schema. */
  lemma DefaultTableIsAlphabet()
    ensures IsAlphabet(AlphaNumeric)
  {
    DefaultTableShape();
  }

  /** Different string arrays are different JSON arrays. */
  lemma StringsToJsonInjective(ss: seq<string>, ts: seq<string>)
    requires StringsToJson(ss) == StringsToJson(ts)
    ensures ss == ts
  {
    assert |ss| == |StringsToJson(ss)| == |ts|;
    forall i | 0 <= i < |ss| ensures ss[i] == ts[i] {
      assert StringsToJson(ss)[i] == JString(ss[i]);
      assert StringsToJson(ts)[i] == JString(ts[i]);
    }
  }

  /** Valid strings survive the alphabet schema unchanged, in order. */
  lemma {:induction false} CharactersSchemaKeeps(ss: seq<string>)
    requires IsAlphabet(ss)
    ensures CharactersSchema(JArray(StringsToJson(ss))) == Ok(ss)
  {
    var data := JArray(StringsToJson(ss));
    assert IsCharactersValue(data) by {
      forall i | 0 <= i < |data.items| ensures IsNonEmptyString(data.items[i]) {
        assert data.items[i] == JString(ss[i]);
      }
    }
    StringsToJsonInjective(CharactersSchema(data).value, ss);
  }

  // ---------------------------------------------------------------------------
  // What the reader promises, setting by setting
  // ---------------------------------------------------------------------------

  /** The error a rejected, present JSON setting produces. */
  function Rejection(raw: JsonText, setting: Setting): Error {
    if raw.Malformed? then JsonSyntaxError(setting) else ValidationError(setting)
  }

  /** With SHORT_CHARS unset, the alphabet is exactly the built-in table. */
  lemma CharactersDefault(env: Env, defaultLength: nat -> JsNumber)
    requires env.shortChars.None?
    ensures CharactersAccepted(env.shortChars) && AlphabetSize(env.shortChars) == 62
    ensures Parse(env, defaultLength).Ok? ==> Parse(env, defaultLength).value.characters == AlphaNumeric
  {
    DefaultTableShape();
  }

  /**
   * With SHORT_CHARS set to an array of non-empty strings, the alphabet is
   * that array, unchanged and in order; and any alphabet that results from
   * a set SHORT_CHARS is exactly what it held.
   */
  lemma CharactersOverride(env: Env, defaultLength: nat -> JsNumber, ss: seq<string>)
    requires env.shortChars == Some(WellFormed(JArray(StringsToJson(ss))))
    ensures CharactersAccepted(env.shortChars) <==> IsAlphabet(ss)
    ensures Parse(env, defaultLength).Ok? ==> Parse(env, defaultLength).value.characters == ss
  {
    if IsAlphabet(ss) {
      CharactersSchemaKeeps(ss);
    } else if CharactersAccepted(env.shortChars) {
      var r := CharactersSchema(JArray(StringsToJson(ss)));
      StringsToJsonInjective(r.value, ss);
    }
  }

  /** With SHORT_LENGTH unset, the length is the default for the alphabet's size. */
  lemma LengthDefault(env: Env, defaultLength: nat -> JsNumber)
    requires env.shortLength.None?
    requires Parse(env, defaultLength).Ok?
    ensures var c := Parse(env, defaultLength).value;
      defaultLength(|c.characters|) == Finite(c.length as real)
  {
  }

  /** The default length depends on nothing but the size of the alphabet. */
  lemma DefaultLengthDependsOnlyOnSize(env1: Env, env2: Env, defaultLength: nat -> JsNumber)
    requires env1.shortLength.None? && env2.shortLength.None?
    requires Parse(env1, defaultLength).Ok? && Parse(env2, defaultLength).Ok?
    requires |Parse(env1, defaultLength).value.characters| == |Parse(env2, defaultLength).value.characters|
    ensures Parse(env1, defaultLength).value.length == Parse(env2, defaultLength).value.length
  {
    LengthDefault(env1, defaultLength);
    LengthDefault(env2, defaultLength);
  }

  /**
   * With SHORT_LENGTH set, the read succeeds only if the number is a
   * positive integer, and the length is then that number.
   */
  lemma LengthOverride(env: Env, defaultLength: nat -> JsNumber)
    requires env.shortLength.Some?
    ensures Parse(env, defaultLength).Ok? ==>
      IsLengthValue(env.shortLength.value) && env.shortLength.value == Finite(Parse(env, defaultLength).value.length as real)
  {
  }

  /**
   * An alphabet of one symbol with SHORT_LENGTH unset: the floating-point
   * default is ln(1e9) / ln(1) = +Infinity, which the length schema refuses,
   * so the whole read fails at SHORT_LENGTH.
   */
  lemma SingleSymbolAlphabetWithoutLength(env: Env, defaultLength: nat -> JsNumber, symbol: string)
    requires env.shortChars == Some(WellFormed(JArray([JString(symbol)])))
    requires |symbol| >= 1
    requires env.shortLength.None?
    requires defaultLength(1) == PositiveInfinity
    ensures Parse(env, defaultLength) == Err(ValidationError(ShortLength))
  {
    assert StringsToJson([symbol]) == [JString(symbol)];
    CharactersOverride(env, defaultLength, [symbol]);
  }

  /** With SHORT_REWRITES unset, there are no rewrites. */
  lemma RewritesDefault(env: Env, defaultLength: nat -> JsNumber)
    requires env.shortRewrites.None?
    ensures Parse(env, defaultLength).Ok? ==> Parse(env, defaultLength).value.rewrites == map[]
  {
  }

  /**
   * With SHORT_REWRITES set, a successful read means it was an object of
   * non-empty strings, and the rewrites are its keys with their values.
   */
  lemma RewritesOverride(env: Env, defaultLength: nat -> JsNumber)
    requires env.shortRewrites.Some?
    ensures Parse(env, defaultLength).Ok? ==>
      var fields := env.shortRewrites.value.value.fields;
      var rewrites := Parse(env, defaultLength).value.rewrites;
      && env.shortRewrites.value.WellFormed?
      && IsRewritesValue(env.shortRewrites.value.value)
      && rewrites.Keys == fields.Keys
      && forall k :: k in rewrites ==> fields[k] == JString(rewrites[k])
  {
  }

  /**
   * A failed read reports the first setting, in the order SHORT_CHARS,
   * SHORT_LENGTH, SHORT_REWRITES, that is not acceptable, and says whether
   * its text was not JSON or its value broke the schema. Nothing else is
   * returned: there is no partial configuration.
   */
  lemma ParseFailsAtFirstRejectedSetting(env: Env, defaultLength: nat -> JsNumber)
    ensures !CharactersAccepted(env.shortChars) ==>
      Parse(env, defaultLength) == Err(Rejection(env.shortChars.value, ShortChars))
    ensures CharactersAccepted(env.shortChars) && !LengthAccepted(env.shortLength, AlphabetSize(env.shortChars), defaultLength) ==>
      Parse(env, defaultLength) == Err(ValidationError(ShortLength))
    ensures (CharactersAccepted(env.shortChars)
      && LengthAccepted(env.shortLength, AlphabetSize(env.shortChars), defaultLength)
      && !RewritesAccepted(env.shortRewrites)) ==>
      Parse(env, defaultLength) == Err(Rejection(env.shortRewrites.value, ShortRewrites))
  {
  }

  /**
   * With nothing set, the configuration is the built-in table, the default
   * length for 62 symbols when that is a positive integer, and no rewrites.
   */
  lemma EmptyEnvironment(defaultLength: nat -> JsNumber)
    ensures var r := Parse(Env(None, None, None), defaultLength);
      if IsLengthValue(defaultLength(62)) then
        r.Ok? && r.value.characters == AlphaNumeric && r.value.rewrites == map[]
        && Finite(r.value.length as real) == defaultLength(62)
      else
        r == Err(ValidationError(ShortLength))
  {
    DefaultTableShape();
  }
}
