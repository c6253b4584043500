/**
 * The ObjectId attribute cast of the Eloquent integration: it stores a
 * model's `_id` as a native BSON ObjectId and, when the model declares a
 * string key, hands that key to the application as its hexadecimal string.
 *
 * The model the cast is attached to is represented by the two things the
 * cast asks of it: the name of its key attribute and its declared key type.
 */
module ObjectIdCast {
  import opened Wrappers
  import opened BsonObjectId

  /**
   * The attribute values the cast can be handed. Values of any other type
   * (floats, arrays, other BSON objects such as Binary or UTCDateTime) are
   * opaque to the cast and are represented by their debug type name.
   */
  datatype Value =
    | ObjectIdValue(id: ObjectId)
    | StringValue(s: string)
    | IntValue(i: int)
    | BoolValue(b: bool)
    | NullValue
    | OtherValue(debugType: OtherTypeName)

  /**
   * The debug type name of a value of none of the types above: never the
   * name of one of those types.
   */
  type OtherTypeName = t: string | t !in {"string", "int", "bool", "null", ObjectIdClass}
    witness "float"

  /** The two reasons `set` throws; the key is that of the attribute being cast. */
  datatype CastError =
    | InvalidType(key: string, got: string)           // neither an ObjectId nor a string
    | InvalidObjectIdString(key: string, input: string) // a string the driver cannot parse

  /** The key type under which the key attribute is handed out as a string. */
  const StringKeyType := "string"

  /** The class name of the driver's ObjectId, as a model may declare it as its key type. */
  const ObjectIdClass := "MongoDB\\BSON\\ObjectId"

  /** The type name PHP reports for a value: each of the cast's cases has a name of its own. */
  function DebugType(v: Value): (t: string)
    ensures t == "string" <==> v.StringValue?
    ensures t == ObjectIdClass <==> v.ObjectIdValue?
    ensures t == "int" <==> v.IntValue?
    ensures t == "bool" <==> v.BoolValue?
    ensures t == "null" <==> v.NullValue?
  {
    match v
    case ObjectIdValue(_) => ObjectIdClass
    case StringValue(_) => "string"
    case IntValue(_) => "int"
    case BoolValue(_) => "bool"
    case NullValue => "null"
    case OtherValue(t) => t
  }

  /** True when `get` hands the value out as a string: a stored ObjectId of the key of a string-keyed model. */
  predicate IsStringifiedKey(keyName: string, keyType: string, key: string, value: Value) {
    value.ObjectIdValue? && keyName == key && keyType == StringKeyType
  }

  /**
   * The read side. It never fails and never looks at the other attributes:
   * it changes the value exactly when it is a stored ObjectId of the key of a
   * string-keyed model, and then to a canonical string that the driver parses
   * back to that same ObjectId.
   */
  function Get(keyName: string, keyType: string, key: string, value: Value, attributes: map<string, Value>): (r: Value)
    ensures r != value <==> IsStringifiedKey(keyName, keyType, key, value)
    ensures r != value ==> r.StringValue? && IsCanonical(r.s) && Parse(r.s) == Some(value.id)
  {
    if IsStringifiedKey(keyName, keyType, key, value) then
      ParseOfRender(value.id);
      StringValue(Render(value.id))
    else
      value
  }

  /**
   * The write side. It succeeds exactly on an ObjectId and on a string the
   * driver parses; the result is then a map with the one entry `key`, whose
   * value is an ObjectId (the given one unchanged, or the one the string
   * denotes). Any other type and any unparsable string are errors.
   */
  function Set(key: string, value: Value, attributes: map<string, Value>): (r: Result<map<string, Value>, CastError>)
    ensures r.Success? <==> value.ObjectIdValue? || (value.StringValue? && Parse(value.s).Some?)
    ensures r.Success? ==> r.value.Keys == {key} && r.value[key].ObjectIdValue?
    ensures value.ObjectIdValue? ==> r == Success(map[key := value])
    ensures value.StringValue? && r.Success? ==> Render(r.value[key].id) == LowerHex(value.s)
    ensures !value.ObjectIdValue? && !value.StringValue? ==> r == Failure(InvalidType(key, DebugType(value)))
    ensures value.StringValue? && r.Failure? ==> r == Failure(InvalidObjectIdString(key, value.s))
    ensures r.Failure? && r.error.InvalidType? ==> r.error.got != "string" && r.error.got != ObjectIdClass
  {
    match value
    case ObjectIdValue(_) => Success(map[key := value])
    case StringValue(s) =>
      (match Parse(s)
       case None => Failure(InvalidObjectIdString(key, s))
       case Some(id) =>
         RenderOfParse(s);
         Success(map[key := ObjectIdValue(id)]))
    case _ => Failure(InvalidType(key, DebugType(value)))
  }

  /** A stringified key is exactly the driver's string form of the stored ObjectId. */
  lemma GetRendersKey(keyName: string, keyType: string, key: string, id: ObjectId, a: map<string, Value>)
    requires keyName == key && keyType == StringKeyType
    ensures Get(keyName, keyType, key, ObjectIdValue(id), a) == StringValue(Render(id))
  {
  }

  /** Neither side of the cast depends on the model's other attributes. */
  lemma CastIgnoresAttributes(keyName: string, keyType: string, key: string, value: Value, a: map<string, Value>, b: map<string, Value>)
    ensures Get(keyName, keyType, key, value, a) == Get(keyName, keyType, key, value, b)
    ensures Set(key, value, a) == Set(key, value, b)
  {
  }

  /**
   * Writing a canonical string to the key of a string-keyed model and reading
   * it back gives the same string.
   */
  lemma SetThenGetCanonical(keyName: string, s: string, a: map<string, Value>, b: map<string, Value>)
    requires IsCanonical(s)
    ensures Set(keyName, StringValue(s), a).Success?
    ensures Get(keyName, StringKeyType, keyName, Set(keyName, StringValue(s), a).value[keyName], b) == StringValue(s)
  {
  }

  /**
   * For any string the driver accepts, reading back the key of a
   * string-keyed model gives the string in lower case.
   */
  lemma SetThenGetLowercases(keyName: string, s: string, a: map<string, Value>, b: map<string, Value>)
    requires Parse(s).Some?
    ensures Set(keyName, StringValue(s), a).Success?
    ensures Get(keyName, StringKeyType, keyName, Set(keyName, StringValue(s), a).value[keyName], b) == StringValue(LowerHex(s))
  {
  }

  /**
   * When the model declares a key type other than "string" (an ObjectId
   * class, say), reading back a written key gives the native ObjectId.
   */
  lemma SetThenGetNativeKey(keyName: string, keyType: string, s: string, a: map<string, Value>, b: map<string, Value>)
    requires keyType != StringKeyType && Parse(s).Some?
    ensures Set(keyName, StringValue(s), a).Success?
    ensures Get(keyName, keyType, keyName, Set(keyName, StringValue(s), a).value[keyName], b) == ObjectIdValue(Parse(s).value)
  {
  }

  /**
   * Whatever the model's key name and key type, writing back what was read
   * from a stored ObjectId stores that same ObjectId again.
   */
  lemma GetThenSet(keyName: string, keyType: string, key: string, id: ObjectId, a: map<string, Value>, b: map<string, Value>)
    ensures Set(key, Get(keyName, keyType, key, ObjectIdValue(id), a), b) == Success(map[key := ObjectIdValue(id)])
  {
  }

  /** Casting a stored value for storage again changes nothing. */
  lemma SetIdempotent(key: string, value: Value, a: map<string, Value>, b: map<string, Value>)
    requires Set(key, value, a).Success?
    ensures Set(key, Set(key, value, a).value[key], b) == Set(key, value, a)
  {
  }
}
