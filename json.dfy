/**
  JSON documents as values. The programs exchange JSON as text (Python's
  `json` module on the host, ArduinoJson on the board); this model keeps the
  documents as values and treats the text formatting of each library as an
  oracle, a `Codec`.
 */
module Json {
  import opened Wrappers

  /** A JSON value. Objects are maps: the models never depend on key order. */
  datatype Json =
    | JNull
    | JBool(b: bool)
    | JInt(i: int)
    | JReal(r: real)
    | JStr(s: string)
    | JArr(items: seq<Json>)
    | JObj(fields: map<string, Json>)

  /**
    The text side of a JSON library, as an oracle:
    - `serialize` writes a document as text (`json.dump`, `serializeJson`);
    - `deserialize` reads text back, `None` when the text is not valid JSON
      for that library (`JSONDecodeError`, a `DeserializationError`);
    - `asString` is what the library gives when a value that is not a string
      is read as a string (ArduinoJson's `as<String>()` on a number, a null, ...).
   */
  datatype Codec = Codec(
    serialize: Json -> string,
    deserialize: string -> Option<Json>,
    asString: Json -> string)

  /** The member `key` of an object; `None` when `j` is not an object or lacks the key. */
  function Get(j: Json, key: string): (v: Option<Json>)
    ensures v.Some? <==> j.JObj? && key in j.fields
    ensures v.Some? ==> v.value == j.fields[key]
  {
    if j.JObj? && key in j.fields then Some(j.fields[key]) else None
  }

  /** The string held at `key`, `None` when the key is missing or holds another kind of value. */
  function GetString(j: Json, key: string): (v: Option<string>)
    ensures v.Some? <==> Get(j, key).Some? && Get(j, key).value.JStr?
    ensures v.Some? ==> Get(j, key) == Some(JStr(v.value))
  {
    match Get(j, key)
    case Some(JStr(s)) => Some(s)
    case _ => None
  }

  /**
    ArduinoJson's `doc[key].as<String>()`: a string member is returned as it
    is; a missing member reads as null, and a value that is not a string is
    converted by the library.
   */
  function AsString(codec: Codec, doc: Json, key: string): (s: string)
    ensures GetString(doc, key).Some? ==> s == GetString(doc, key).value
    ensures Get(doc, key).None? ==> s == codec.asString(JNull)
    ensures Get(doc, key).Some? && !Get(doc, key).value.JStr? ==> s == codec.asString(Get(doc, key).value)
  {
    match Get(doc, key)
    case Some(JStr(v)) => v
    case Some(other) => codec.asString(other)
    case None => codec.asString(JNull)
  }
}
