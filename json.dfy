/** Option and Result, the two wrappers the client model uses for absent
    values and rejected inputs. */
module Wrappers {

  datatype Option<+T> = None | Some(value: T)

  datatype Result<+T, +E> = Ok(value: T) | Err(error: E)
}

/** JSON values as Python's `json` module decodes them, and the few Python
    operations on decoded values that the client relies on: truthiness,
    `dict.get`, and the message of the AttributeError raised when `.get` is
    called on something that is not a dict. */
module Json {

  datatype Json =
    | JNull
    | JBool(b: bool)
    | JInt(i: int)
    | JFloat(f: real)
    | JStr(s: string)
    | JArr(items: seq<Json>)
    | JObj(fields: map<string, Json>)

  /** A decoded JSON object, i.e. a Python `dict` with string keys. */
  type Dict = map<string, Json>

  /** Python's `bool(v)` on a decoded value. */
  predicate Truthy(v: Json) {
    match v
    case JNull => false
    case JBool(b) => b
    case JInt(i) => i != 0
    case JFloat(f) => f != 0.0
    case JStr(s) => s != ""
    case JArr(items) => items != []
    case JObj(fields) => fields != map[]
  }

  /** `d.get(key, default)`. */
  function GetOr(d: Dict, key: string, default: Json): Json {
    if key in d then d[key] else default
  }

  /** `d.get(key)`: a missing key reads as `None`, which is JSON null. */
  function Get(d: Dict, key: string): Json {
    GetOr(d, key, JNull)
  }

  /** The Python type name of a decoded value. */
  function TypeName(v: Json): string {
    match v
    case JNull => "NoneType"
    case JBool(_) => "bool"
    case JInt(_) => "int"
    case JFloat(_) => "float"
    case JStr(_) => "str"
    case JArr(_) => "list"
    case JObj(_) => "dict"
  }

  /** `str(e)` of the AttributeError raised by `v.get(...)` on a non-dict. */
  function NoGetMessage(v: Json): string {
    "'" + TypeName(v) + "' object has no attribute 'get'"
  }

  /** Exactly the values Python treats as false: None, False, 0, 0.0, the
      empty string, the empty list and the empty dict. A missing key read
      with `Get` is therefore falsy. */
  lemma FalsyValues(v: Json)
    ensures !Truthy(v) <==> v in {JNull, JBool(false), JInt(0), JFloat(0.0), JStr(""), JArr([]), JObj(map[])}
  {
  }

  lemma MissingKeyIsFalsy(d: Dict, key: string)
    requires key !in d
    ensures !Truthy(Get(d, key)) && Get(d, key) != JStr("completed") && Get(d, key) != JStr("failed")
  {
  }
}
