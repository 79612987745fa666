/** Option and Result, the two shapes every module uses for Python's `None`
    returns and raised exceptions. */
module Wrappers {

  datatype Option<+T> = None | Some(value: T) {
    function GetOr(default: T): T {
      match this
      case Some(v) => v
      case None => default
    }
  }

  /** `Err` stands for an exception the source raises (or a caught exception
      turned into an error value); its payload is the exception's message. */
  datatype Result<+T> = Ok(value: T) | Err(error: string)
}

/** A JSON-like value: what the source keeps in `Dict[str, Any]` metadata,
    tool arguments and event payloads. */
module Values {
  import opened Wrappers

  datatype Value =
    | Null
    | Bool(b: bool)
    | Int(i: int)
    | Str(s: string)
    | List(items: seq<Value>)
    | Dict(entries: map<string, Value>)

  /** `d.get(key)` on a dictionary value. */
  function Get(d: map<string, Value>, key: string): (r: Option<Value>)
    ensures r.Some? <==> key in d
    ensures r.Some? ==> r.value == d[key]
  {
    if key in d then Some(d[key]) else None
  }

  /** The text functions the source takes from its `json` module and from
      Python's `repr`, supplied by the caller: `loads` (an error carries the
      decoder's message), `dumps`, `pretty` (`dumps` with an indent of two
      and non-ASCII text kept) and `repr`. */
  datatype Codec = Codec(loads: string -> Result<Value>, dumps: Value -> string, pretty: Value -> string,
                         repr: Value -> string)

  /** How `str()` renders a value in an f-string. */
  function Display(v: Value, codec: Codec): (r: string)
    ensures v.Str? ==> r == v.s
  {
    if v.Str? then v.s else codec.repr(v)
  }

  /** `v.get(key, default)` on a dictionary, rendered by `str()`. */
  function FieldText(v: Value, key: string, default: string, codec: Codec): (r: string)
    ensures !(v.Dict? && key in v.entries) ==> r == default
  {
    if v.Dict? && key in v.entries then Display(v.entries[key], codec) else default
  }

  /** Python truthiness of a value. */
  predicate Truthy(v: Value) {
    match v
    case Null => false
    case Bool(b) => b
    case Int(i) => i != 0
    case Str(s) => s != ""
    case List(xs) => xs != []
    case Dict(m) => m != map[]
  }
}
