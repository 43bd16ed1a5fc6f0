/** The part of Vert.x's `JsonObject` the options classes use: a mutable map
    from keys to JSON values, `getValue`, `put`, and the typed getters with a
    default, including the exceptions they throw. */
module Json {
  import opened JavaLang

  /** A JSON value as Vert.x holds it; numbers are kept as integers, and
      arrays and objects are not distinguished. */
  datatype JsonValue = JNull | JBool(b: bool) | JNumber(n: int) | JString(s: string) | JOther

  /** The exceptions the model's operations can throw: the typed getters
      and unboxing, and the timer service refusing a period below 1 ms. */
  datatype Exception = ClassCastException | NullPointerException | IllegalArgumentException

  /** A value, or the exception that prevented it. */
  datatype Result<T> = Ok(value: T) | Throws(error: Exception)

  /** `Number.intValue()` of an integral JSON number: Java narrowing. */
  function IntValue(n: int): Int32 {
    WrapInt(n)
  }

  /** `getValue`: `null` both for a missing key and for a JSON `null`. */
  function ValueOf(entries: map<string, JsonValue>, key: string): (v: Option<JsonValue>)
    ensures v.Some? <==> key in entries && entries[key] != JNull
    ensures v.Some? ==> v.value == entries[key]
  {
    if key in entries && entries[key] != JNull then Some(entries[key]) else None
  }

  /** `getString(key, def)`: the default only for a missing key; a JSON
      `null` reads as `null`; any other non-string throws. */
  function StringOf(entries: map<string, JsonValue>, key: string, def: Option<string>): (r: Result<Option<string>>)
    ensures key !in entries ==> r == Ok(def)
    ensures key in entries && entries[key].JString? ==> r == Ok(Some(entries[key].s))
    ensures key in entries && entries[key] == JNull ==> r == Ok(None)
    ensures r.Throws? <==> key in entries && !entries[key].JString? && entries[key] != JNull
    ensures r.Throws? ==> r.error == ClassCastException
  {
    if key !in entries then Ok(def)
    else match entries[key]
      case JString(s) => Ok(Some(s))
      case JNull => Ok(None)
      case _ => Throws(ClassCastException)
  }

  /** `getInteger(key, def)`: the default only for a missing key; a JSON
      `null` reads as `null`; a number is narrowed with `intValue()`; any
      other value throws. */
  function IntegerOf(entries: map<string, JsonValue>, key: string, def: Int32): (r: Result<Option<Int32>>)
    ensures key !in entries ==> r == Ok(Some(def))
    ensures key in entries && entries[key].JNumber? ==> r == Ok(Some(IntValue(entries[key].n)))
    ensures key in entries && entries[key] == JNull ==> r == Ok(None)
    ensures r.Throws? <==> key in entries && !entries[key].JNumber? && entries[key] != JNull
  {
    if key !in entries then Ok(Some(def))
    else match entries[key]
      case JNumber(n) => Ok(Some(IntValue(n)))
      case JNull => Ok(None)
      case _ => Throws(ClassCastException)
  }

  /** Assigning an `Integer` to an `int`: unboxing `null` throws. */
  function Unbox(r: Result<Option<Int32>>): (u: Result<Int32>)
    ensures r.Ok? && r.value.Some? ==> u == Ok(r.value.value)
    ensures r.Ok? && r.value.None? ==> u == Throws(NullPointerException)
    ensures r.Throws? ==> u == Throws(r.error)
  {
    match r
    case Ok(Some(i)) => Ok(i)
    case Ok(None) => Throws(NullPointerException)
    case Throws(e) => Throws(e)
  }

  class JsonObject {
    var entries: map<string, JsonValue>

    constructor (entries: map<string, JsonValue>)
      ensures this.entries == entries
    {
      this.entries := entries;
    }

    method Put(key: string, value: JsonValue)
      modifies this
      ensures entries == old(entries)[key := value]
    {
      entries := entries[key := value];
    }
  }
}
