/** Parsed JSON, with the accessors of `serde_json::Value` that the parsers call. */
module Json {
  import opened Text

  datatype Json =
    | Null
    | Bool(b: bool)
    | Int(n: int)
    | Float(r: real)
    | Str(s: string)
    | Arr(items: seq<Json>)
    | Obj(fields: map<string, Json>)
  {
    function Get(key: string): Option<Json> {
      if Obj? && key in fields then Some(fields[key]) else None
    }

    function AsStr(): Option<string> {
      if Str? then Some(s) else None
    }

    function AsArr(): Option<seq<Json>> {
      if Arr? then Some(items) else None
    }

    function AsU64(): Option<nat> {
      if Int? && 0 <= n < 0x1_0000_0000_0000_0000 then Some(n) else None
    }

    function GetStr(key: string): Option<string> {
      match Get(key)
      case Some(v) => v.AsStr()
      case None => None
    }
  }

  /** `j` is an object whose field `key` is `v`; said without any accessor. */
  predicate Holds(j: Json, key: string, v: Json) {
    j.Obj? && key in j.fields && j.fields[key] == v
  }

  /** `j` is an object whose field `outer` is an object whose field `key` is `v`. */
  predicate HoldsInner(j: Json, outer: string, key: string, v: Json) {
    j.Obj? && outer in j.fields && Holds(j.fields[outer], key, v)
  }

  /** A field as a writer sets it or leaves it out, beside whatever other fields there are. */
  function With(fields: map<string, Json>, key: string, v: Option<Json>): map<string, Json> {
    match v
    case Some(j) => fields[key := j]
    case None => fields - {key}
  }

  function OptStr(text: Option<string>): Option<Json> {
    match text
    case Some(s) => Some(Str(s))
    case None => None
  }

  /**
   * What the parsers call but do not define: JSON reading and writing, and the n-th UUID drawn
   * from the operating system.
   */
  datatype Codec = Codec(parse: string -> Option<Json>, render: Json -> string, uuid: nat -> string)
  {
    /** `serde_json::from_str(raw).unwrap_or(Value::Null)` */
    function ParseOrNull(raw: string): Json {
      match parse(raw)
      case Some(v) => v
      case None => Null
    }
  }
}
