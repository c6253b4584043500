# ObjectId attribute cast

A Dafny model of the ObjectId attribute cast of the Laravel MongoDB
integration (`Jenssegers\Mongodb\Eloquent\Casts\ObjectId`). The cast sits on
a model's `_id` attribute and converts it in both directions:

- `get` (reading an attribute) turns a stored BSON ObjectId into its
  hexadecimal string, but only for the model's key attribute and only when
  the model declares its key type as `"string"`; every other value passes
  through unchanged.
- `set` (preparing an attribute for storage) accepts a native ObjectId as it
  is, parses a string into an ObjectId, and throws for an unparsable string
  or a value of any other type. On success it returns the one-entry array
  `[key => ObjectId]`.

Files:

- `wrappers.dfy` — `Option` and `Result`.
- `bson_object_id.dfy` — module `BsonObjectId`: the driver's ObjectId as
  twelve bytes, its string constructor (`Parse`) and its string conversion
  (`Render`), with the round-trip lemmas between them.
- `object_id_cast.dfy` — module `ObjectIdCast`: PHP values as a tagged
  union `Value`, the two error kinds as `CastError`, the cast's `Get` and
  `Set`, and the lemmas that relate them.

The model the cast is attached to appears only through what the cast asks of
it: its key name (`getKeyName()`) and declared key type (`getKeyType()`),
passed to `Get` as plain parameters. A thrown `RuntimeException` is a
`Failure` carrying a `CastError`.

The driver's ObjectId is a foreign class. Its contract is modelled as follows.
The constructor accepts exactly the strings of 24 hexadecimal characters in
either case. The string conversion
yields 24 lowercase hexadecimal characters. The driver accepts
upper-case digits as well as the canonical lower-case ones, and lower-cases
them on the way back; the cast adds no check of its own. The model follows
the code: `Set` accepts upper-case input, and `SetThenGetLowercases`
states what reading it back gives.

## Model

| member | source | states |
|---|---|---|
| `BsonObjectId.Parse` | src/Eloquent/Casts/ObjectId.php:56 | the ObjectId constructor succeeds exactly on strings of 24 hexadecimal characters |
| `BsonObjectId.Render` | src/Eloquent/Casts/ObjectId.php:31 | the string form of any ObjectId is canonical: 24 lowercase hexadecimal characters |
| `BsonObjectId.RenderBytes` | src/Eloquent/Casts/ObjectId.php:31 | rendering writes two lowercase hexadecimal digits per byte |
| `BsonObjectId.ParseHex` | src/Eloquent/Casts/ObjectId.php:56 | hexadecimal decoding succeeds exactly when every character is a hexadecimal digit, and yields one byte per two characters |
| `BsonObjectId.ParseHexOfRenderBytes` | src/Eloquent/Casts/ObjectId.php:31 | decoding rendered bytes gives the bytes back |
| `BsonObjectId.RenderBytesOfParseHex` | src/Eloquent/Casts/ObjectId.php:56 | rendering decoded bytes gives the input back, lower-cased |
| `BsonObjectId.ParseOfRender` | src/Eloquent/Casts/ObjectId.php:31 | parsing the string form of an ObjectId gives that ObjectId |
| `BsonObjectId.RenderOfParse` | src/Eloquent/Casts/ObjectId.php:56 | the string form of a parsed ObjectId is the input lower-cased |
| `BsonObjectId.CanonicalRoundTrip` | src/Eloquent/Casts/ObjectId.php:56 | a canonical string parses, and its ObjectId renders back to the same string |
| `BsonObjectId.CanonicalFormUnique` | src/Eloquent/Casts/ObjectId.php:31 | the only canonical string denoting an ObjectId is its string form |
| `BsonObjectId.RenderInjective` | src/Eloquent/Casts/ObjectId.php:31 | distinct ObjectIds have distinct string forms |
| `ObjectIdCast.Get` | src/Eloquent/Casts/ObjectId.php:28-35 | `get` changes the value if and only if it is an ObjectId, the attribute is the key and the key type is "string"; the new value is a canonical string that parses back to the same ObjectId; otherwise the value is returned unchanged; it never fails |
| `ObjectIdCast.GetRendersKey` | src/Eloquent/Casts/ObjectId.php:30-31 | for the key of a string-keyed model, `get` returns exactly the driver's string form of the stored ObjectId |
| `ObjectIdCast.DebugType` | src/Eloquent/Casts/ObjectId.php:53 | the type name reported for a value is "string", "int", "bool", "null" or the ObjectId class name exactly when the value is of that type, so the invalid-type error never names a string or an ObjectId |
| `ObjectIdCast.Set` | src/Eloquent/Casts/ObjectId.php:49-63 | `set` succeeds exactly on an ObjectId or a parsable string; a non-string, non-ObjectId fails with the invalid-type error naming the key and the value's type; an unparsable string fails with the invalid-ObjectId-string error; on success the result has the single key `key`, holding an ObjectId: the given one unchanged, or the one whose string form is the input lower-cased |
| `ObjectIdCast.CastIgnoresAttributes` | src/Eloquent/Casts/ObjectId.php:28-63 | neither `get` nor `set` depends on the `attributes` argument |
| `ObjectIdCast.SetThenGetCanonical` | src/Eloquent/Casts/ObjectId.php:31-56 | writing a canonical string to the key of a string-keyed model and reading it back returns that string |
| `ObjectIdCast.SetThenGetLowercases` | src/Eloquent/Casts/ObjectId.php:31-56 | writing any parsable string to the key of a string-keyed model and reading it back returns the string lower-cased |
| `ObjectIdCast.SetThenGetNativeKey` | tests/Models/Address.php:16-20 | for a model whose key type is not "string" (such as the ObjectId class), reading back a written key returns the native ObjectId, not a string |
| `ObjectIdCast.GetThenSet` | src/Eloquent/Casts/ObjectId.php:30-62 | for any key name and key type, writing back what `get` returned for a stored ObjectId stores that same ObjectId |
| `ObjectIdCast.SetIdempotent` | src/Eloquent/Casts/ObjectId.php:51-62 | casting an already cast value for storage gives the same result |

## Left out

- The exception messages (lines 53 and 58): their `sprintf` formatting with the model's class name is not modelled. A `CastError` keeps the error kind, the attribute key, and either the value's debug type or the rejected string.
- The wrapping of the driver's `InvalidArgumentException` as the previous exception of the `RuntimeException` (line 58) is not modelled; only the error kind is.
- PHP values other than ObjectIds, strings, integers, booleans and null (floats, arrays, other objects such as `Binary` or `UTCDateTime`) are one opaque `OtherValue` case carrying their debug type name, which is never the name of one of the modelled types. The cast treats them all alike.
- The model object itself: only its key name and key type are inputs. Its attribute storage, dirty tracking and the rest of the Eloquent lifecycle are outside the cast.
- The driver's generation of new ObjectIds (timestamp, machine and counter fields) is foreign code and is not needed by the cast; only its string constructor and string conversion are modelled.
- A string of 24 hexadecimal characters followed by a NUL character, which the C library under the driver may also accept as an ObjectId, is rejected by `Parse`; the model only accepts strings of exactly 24 hexadecimal characters.
