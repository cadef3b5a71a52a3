/** Python values as they flow through the orchestration code: parsed JSON
    records, configuration entries and the dictionaries handed to storage. */
module Values {

  datatype Option<T> = None | Some(value: T)

  /** The Python exceptions the modelled code can raise. */
  datatype Error =
    | KeyError(key: string)
    | TypeError
    | AttributeError
    | ValueError
    | FormatError            // an f-string ':.2f' applied to a non-number
    | ParseError             // rapidjson.loads on a line that is not JSON
    | FileNotFoundError      // open() of a file whose directory does not exist
    | OperationalException(message: string)

  /** A computation that either returns a value or raises. */
  datatype Result<T> = Ok(value: T) | Err(error: Error) {
    predicate IsFailure() { Err? }

    function PropagateFailure<U>(): Result<U>
      requires Err?
    {
      Err(error)
    }

    function Extract(): T
      requires Ok?
    {
      value
    }
  }

  /** A statement that either completes or raises. */
  datatype Outcome = Pass | Fail(error: Error)

  /** Dictionary keys: JSON gives strings, `int(key)` gives integers. */
  datatype Key = StrKey(s: string) | IntKey(i: int)

  datatype Value =
    | Null
    | Bool(b: bool)
    | Int(i: int)
    | Float(r: real)         // floating point is modelled by exact reals
    | Str(s: string)
    | List(items: seq<Value>)
    | Dict(entries: map<Key, Value>)

  /** A Python dict, the contents of one stored JSON document. */
  type Doc = map<Key, Value>

  /** Python truthiness (`if v:`). */
  predicate Truthy(v: Value) {
    match v
    case Null => false
    case Bool(b) => b
    case Int(i) => i != 0
    case Float(r) => r != 0.0
    case Str(s) => s != ""
    case List(xs) => xs != []
    case Dict(m) => m != map[]
  }

  /** The value of `d[k]` when present, `default` otherwise (`d.get(k, default)`). */
  function Get(d: Doc, k: string, default: Value): Value {
    if StrKey(k) in d then d[StrKey(k)] else default
  }

  /** The numeric value of an int, float or bool; None for anything else. */
  function AsNumber(v: Value): Option<real> {
    match v
    case Int(i) => Some(i as real)
    case Float(r) => Some(r)
    case Bool(b) => Some(if b then 1.0 else 0.0)
    case _ => None
  }

  /** `d[k]` on a value: a dict lookup that raises KeyError when the key is
      absent and TypeError when `d` is not a dict. */
  function Subscript(d: Value, k: string): (r: Result<Value>)
    ensures r.Ok? <==> d.Dict? && StrKey(k) in d.entries
    ensures r.Ok? ==> r.value == d.entries[StrKey(k)]
    ensures r.Err? ==> r.error == (if d.Dict? then KeyError(k) else TypeError)
  {
    if !d.Dict? then Err(TypeError)
    else if StrKey(k) !in d.entries then Err(KeyError(k))
    else Ok(d.entries[StrKey(k)])
  }
}
