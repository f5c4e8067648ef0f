/** Shared vocabulary of the model: optional values, the exceptions the
    Python code raises, a "returns or raises" wrapper, and the dynamically
    typed values (YAML/JSON documents, keyword arguments) it passes around. */
module Common {

  datatype Option<+T> = None | Some(value: T)

  /** The exception classes that the modelled code raises or lets through. */
  datatype Error =
    | ValueError(msg: string)
    | TypeError(msg: string)
    | KeyError(key: string)
    | AttributeError(name: string)
    | IndexError(msg: string)
    | NotImplementedError(msg: string)
    | JujuSpellError(msg: string)
    | ArgumentTypeError(msg: string)
    | Abort(msg: string)
    | JujuConnectionError(msg: string)
    /** A configuration value rejected by its validation template. */
    | ConfigError(msg: string)
    /** Any other exception raised by the juju client library. */
    | RemoteError(msg: string)

  /** The outcome of a Python call: it returns a value or raises. */
  datatype Try<+T> = Ok(value: T) | Raise(error: Error)

  /** A dynamically typed Python value as it comes out of YAML or JSON.
      Mappings whose order matters to the code are kept as sequences of
      pairs where they are used; `Dict` is for mappings compared by content. */
  datatype Value =
    | Null
    | Bool(b: bool)
    | Int(i: int)
    | Str(s: string)
    | List(items: seq<Value>)
    | Dict(entries: map<string, Value>)

  /** Python truthiness. */
  predicate Truthy(v: Value)
  {
    match v
    case Null => false
    case Bool(b) => b
    case Int(i) => i != 0
    case Str(s) => s != ""
    case List(xs) => xs != []
    case Dict(m) => m != map[]
  }

  /** `d[key]` on a value: a mapping without the key raises KeyError, anything
      that is not a mapping raises TypeError. */
  function Index(d: Value, key: string): (r: Try<Value>)
    ensures r.Ok? <==> d.Dict? && key in d.entries
    ensures r.Ok? ==> r.value == d.entries[key]
  {
    match d
    case Dict(m) => if key in m then Ok(m[key]) else Raise(KeyError(key))
    case _ => Raise(TypeError("object is not subscriptable"))
  }

  /** `d.get(key, default)`: only mappings have `get`. */
  function GetOr(d: Value, key: string, default: Value): (r: Try<Value>)
    ensures r.Ok? <==> d.Dict?
    ensures d.Dict? && key in d.entries ==> r == Ok(d.entries[key])
    ensures d.Dict? && key !in d.entries ==> r == Ok(default)
  {
    match d
    case Dict(m) => Ok(if key in m then m[key] else default)
    case _ => Raise(AttributeError("get"))
  }
}
