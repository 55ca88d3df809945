# URL-shortener startup configuration, in Dafny

This project models how the URL shortener reads its configuration at startup
(`src/config/characters.ts`). Three optional environment settings are read in
order, and the first one that fails stops the whole read:

- `SHORT_CHARS` gives the alphabet of short IDs. It is JSON text holding an
  array of at least one non-empty string. When it is unset, the built-in
  table is used.
- `SHORT_LENGTH` gives the number of symbols in a generated ID. It must be a
  positive integer. When it is unset, the length is derived from the size of
  the alphabet: `round(ln(1e9) / ln(size))`, so that `size^length` is about
  the one billion short URLs the service is sized for.
- `SHORT_REWRITES` gives the rewrites applied to a URL before redirecting. It
  is JSON text holding an object whose values are non-empty strings. When it
  is unset, there are no rewrites.

`SHORT_CHARS` or `SHORT_REWRITES` present but not JSON stops the read with
`JsonSyntaxError`. A value that breaks its schema stops it with
`ValidationError`. `SHORT_LENGTH` is never JSON-decoded: text that is not a
number converts to NaN, which the length schema refuses with
`ValidationError`. Each error names its setting. The result is either the
whole `Config` or one error: there is never a partial configuration.

Files:

- `wrappers.dfy`: module `Wrappers`, with `Option` and `Result`.
- `json.dfy`: module `Json`, with the decoded values the reader works on.
  `JsNumber` is a JavaScript number: a finite value (as a real), either
  infinity, or NaN. `Json` covers every value `JSON.parse` can return, and
  more: its numbers may also be NaN or an infinity, which `JSON.parse` never
  produces and every schema here refuses. `JsonText` is
  the outcome of decoding: a syntax error, or a value.
- `characters.dfy`: module `Characters`, with the built-in table, the three
  schemas, the three settings, `Parse`, and the lemmas.

Modelling choices:

- The schemas are stated twice. Once as predicates on values
  (`IsCharactersValue`, `IsLengthValue`, `IsRewritesValue`). Once as
  functions that check step by step and build the result (`CharactersSchema`,
  `LengthSchema`, `RewritesSchema`). Each function's contract ties the two
  together. Each also gives the way back from the result to the input: an
  alphabet turns back into the JSON array it came from, a length is the number
  it came from, and the rewrites are the object's keys with their values.
- The model assumes zod 3 semantics for `.default()`: the default goes
  through its schema just like a value that was set. Zod 3 substitutes the
  default and then runs the inner schema. The source does not pin the zod
  version. So the built-in table is validated, and it passes
  (`ResolveCharacters`). The derived length is validated too. For a
  one-symbol alphabet the floating-point default is `ln(1e9)/0 = +Infinity`.
  The integer check refuses that, so the read fails at `SHORT_LENGTH`
  (`SingleSymbolAlphabetWithoutLength`). Under zod 4, whose `.default()`
  returns the default without running the inner schema, the read would
  instead return `Infinity` as the length.
- The default length is floating-point arithmetic. It is the parameter
  `defaultLength: nat -> JsNumber` of `Parse`, and `Parse` applies it to the
  size of the resolved alphabet.
- The built-in table is written as the concatenation of its three runs:
  lower case (lines 12-37), upper case (lines 38-63) and digits (lines
  64-73). It has the same 62 entries in the same order as the source
  literal. The doc comment at lines 4-9 says the table holds every character
  matching `/^[a-z\d]$/i`. The table does not: line 30 has `'z'` where `'s'`
  belongs and line 56 has `'Z'` where `'S'` belongs. So `s` and `S` are
  missing, `z` and `Z` each appear twice, and `x` comes before `w` (and `X`
  before `W`). The model keeps the table as written, and `DefaultTableAsWritten`
  proves these facts. `r` (line 29) and `R` (line 55) are present.

## Model

| member | source | states |
|---|---|---|
| `Characters.DefaultTableShape` | src/config/characters.ts:10-75 | The built-in table has exactly 62 entries, and each is a single ASCII letter or digit. |
| `Characters.DefaultTableAsWritten` | src/config/characters.ts:4-75 | Against the doc comment's promise: `s` and `S` match the pattern but are not in the table; `z` is at positions 18 and 25 and `Z` at 44 and 51; `x` precedes `w` and `X` precedes `W`. |
| `Characters.DefaultTableIsAlphabet` | src/config/characters.ts:10-77 | The built-in table satisfies the alphabet schema's rules: non-empty, with no empty entry. |
| `Characters.StringItems` | src/config/characters.ts:77 | The element schema `z.string().min(1)` over an array succeeds exactly when every item is a non-empty string; it then yields the strings, same count, same order, each item being the JSON string of its result. |
| `Characters.CharactersSchema` | src/config/characters.ts:77 | Accepts exactly an array of at least one non-empty string, and then returns strings that turn back into that very array; the result is a valid alphabet; any rejection is a validation error for `SHORT_CHARS`. |
| `Characters.CharactersSchemaKeeps` | src/config/characters.ts:77 | Any valid alphabet, written as a JSON array, passes the schema and comes back unchanged. |
| `Characters.LengthSchema` | src/config/characters.ts:103 | Accepts exactly a finite number that is an integer and greater than 0 (NaN, infinities, fractions, 0 and negatives are refused), and returns that number; rejection is a validation error for `SHORT_LENGTH`. |
| `Characters.RewritesSchema` | src/config/characters.ts:91 | Accepts exactly an object whose every value is a non-empty string; the result has the same keys, each mapped to its value's string; rejection is a validation error for `SHORT_REWRITES`. |
| `Characters.ResolveCharacters` | src/config/characters.ts:77-81 | Unset gives exactly the built-in table; text that is not JSON gives a JSON syntax error; decoded JSON succeeds exactly when the schema accepts it, and the alphabet then turns back into the decoded array. |
| `Characters.ResolveLength` | src/config/characters.ts:86-106 | Unset succeeds exactly when the derived default is a positive integer, and the length is then that default; a set number succeeds exactly when it is a positive integer, and the length is then that number; a success is always positive. |
| `Characters.ResolveRewrites` | src/config/characters.ts:91-95 | Unset gives the empty map; text that is not JSON gives a JSON syntax error; decoded JSON succeeds exactly when the schema accepts it, keeping its keys and values; every resulting value is non-empty. |
| `Characters.Parse` | src/config/characters.ts:97-111 | The read succeeds exactly when every setting is acceptable (the length judged against the resolved alphabet's size); a success is a valid alphabet, a positive length and a rewrite map with non-empty values. |
| `Characters.CharactersDefault` | src/config/characters.ts:77-99 | With `SHORT_CHARS` unset, the alphabet setting is acceptable with size 62, and a successful read has exactly the built-in table. |
| `Characters.CharactersOverride` | src/config/characters.ts:77-99 | With `SHORT_CHARS` set to an array of strings, the setting is acceptable exactly when those strings form a valid alphabet, and a successful read has exactly those strings, in order. |
| `Characters.LengthDefault` | src/config/characters.ts:101-106 | With `SHORT_LENGTH` unset, a successful read's length is the default for the size of its alphabet. |
| `Characters.DefaultLengthDependsOnlyOnSize` | src/config/characters.ts:102 | Two successful reads with `SHORT_LENGTH` unset and alphabets of the same size have the same length. |
| `Characters.LengthOverride` | src/config/characters.ts:86-106 | With `SHORT_LENGTH` set, a successful read means the number is a positive integer and the length equals it. |
| `Characters.SingleSymbolAlphabetWithoutLength` | src/config/characters.ts:99-106 | A one-symbol alphabet with `SHORT_LENGTH` unset, where the default is +Infinity, fails with a validation error for `SHORT_LENGTH`. |
| `Characters.RewritesDefault` | src/config/characters.ts:92-108 | With `SHORT_REWRITES` unset, a successful read has no rewrites. |
| `Characters.RewritesOverride` | src/config/characters.ts:91-108 | With `SHORT_REWRITES` set, a successful read means it was well-formed JSON holding an object of non-empty strings, and the rewrites are exactly its keys with their values. |
| `Characters.ParseFailsAtFirstRejectedSetting` | src/config/characters.ts:97-111 | A failed read returns only an error, naming the first unacceptable setting in the order `SHORT_CHARS`, `SHORT_LENGTH`, `SHORT_REWRITES`, and telling a JSON syntax error from a schema violation. |
| `Characters.EmptyEnvironment` | src/config/characters.ts:97-111 | With nothing set, the read gives the built-in table, the default length for 62 symbols and no rewrites when that default is a positive integer, and otherwise fails at `SHORT_LENGTH`. |

## Left out

- `JSON.parse` of the raw `SHORT_CHARS` and `SHORT_REWRITES` text (lines 81 and 95) is a foreign decoder. Its outcome is the input: `JsonText` is either `Malformed` or the decoded value.
- `Number(length)` (line 89) is JavaScript's string-to-number coercion. The converted `JsNumber` is the input.
- `Math.round(Math.log(1e9) / Math.log(n))` (line 102) is floating-point arithmetic. It is the `defaultLength` parameter, so the model does not fix its values (5 for 62 symbols, +Infinity for 1 symbol).
- `JsNumber` treats a finite double as the real it denotes. The model does not restrict reals to the values a double can hold.
- The process environment (`NodeJS.ProcessEnv`) is not read directly. `Env` holds the three settings as explicit values.
- Zod's error objects, issue lists and messages (lines 1-2) are not modelled. An error records only its setting and whether the text was not JSON or the value broke the schema.
- A JSON object is a `map`. The order of a JavaScript object's keys is not modelled, and neither is the way zod and `JSON.parse` handle a `__proto__` key.
- Zod 4's `.default()`, which skips validation of the default, is not modelled: the model assumes zod 3, so with a one-symbol alphabet and `SHORT_LENGTH` unset it fails where zod 4 would return `Infinity`.
- String lengths are counted in Dafny characters, not UTF-16 code units. The only length check is "at least one", which holds in both or in neither.
