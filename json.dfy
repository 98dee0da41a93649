/** Decoded JSON as the hooks see it (Python None, bool, int, str, list and dict), the
    exceptions the hooks can raise, and the few Python operations they apply to values. */
module Json {

  import opened Wrappers
  import IntText

  datatype Value =
    | Null
    | Bool(b: bool)
    | Int(i: int)
    | Str(s: string)
    | List(elems: seq<Value>)
    | Obj(fields: map<string, Value>)

  /** A Python dict with string keys: a record, a context, URL parameters or headers. */
  type Object = map<string, Value>

  /** The Python exceptions raised by the hooks. */
  datatype Error =
    | KeyError(key: string)
    | TypeError
    | AttributeError
    | ValueError
    | AssertionError

  datatype Result<T> = Ok(value: T) | Err(error: Error)

  /** What an in-place update leaves behind: the exception it raised, if any, and the
      contents of the dict it updated, which keeps every write made before the raise. */
  datatype Mutation = Mutation(raised: Option<Error>, after: Object)

  /** `None` becomes JSON null. */
  function FromOption(v: Option<string>): Value
  {
    match v
    case None => Null
    case Some(s) => Str(s)
  }

  /** Python truthiness: `if v:`. */
  predicate Truthy(v: Value)
  {
    match v
    case Null => false
    case Bool(b) => b
    case Int(i) => i != 0
    case Str(s) => s != []
    case List(xs) => xs != []
    case Obj(m) => m != map[]
  }

  /** Python `v == 0`, which also holds of `False`. */
  predicate EqualsZero(v: Value)
  {
    v == Int(0) || v == Bool(false)
  }

  /** Python `d.get(k, None)`. */
  function Get(d: Object, k: string): Value
  {
    if k in d then d[k] else Null
  }

  /** Python `v[k]` with a string key: a KeyError on a dict without `k`, a TypeError on
      anything else (strings and lists need integer indices, None is not subscriptable). */
  function Subscript(v: Value, k: string): (r: Result<Value>)
    ensures r.Ok? <==> v.Obj? && k in v.fields
    ensures r.Ok? ==> r.value == v.fields[k]
  {
    match v
    case Obj(m) => if k in m then Ok(m[k]) else Err(KeyError(k))
    case _ => Err(TypeError)
  }

  /** Python `v[k1][k2]...[kn]`, evaluated from the left; the first failure is raised. */
  function Dig(v: Value, path: seq<string>): Result<Value>
  {
    if path == [] then Ok(v)
    else
      match Subscript(v, path[0])
      case Err(e) => Err(e)
      case Ok(w) => Dig(w, path[1..])
  }

  /** Python `v.pop(k)` on a dict: the removed value and what is left of the dict.
      A list's `pop` wants an integer index (TypeError); other values have no `pop`. */
  function Pop(v: Value, k: string): (r: Result<(Value, Value)>)
    ensures r.Ok? <==> v.Obj? && k in v.fields
    ensures r.Ok? ==> r.value.0 == v.fields[k] && r.value.1 == Obj(v.fields - {k})
  {
    match v
    case Obj(m) => if k in m then Ok((m[k], Obj(m - {k}))) else Err(KeyError(k))
    case List(_) => Err(TypeError)
    case _ => Err(AttributeError)
  }

  /** Python `int(v)`. */
  function IntOf(v: Value): (r: Result<int>)
    ensures v.Int? ==> r == Ok(v.i)
    ensures v.Bool? ==> r == Ok(if v.b then 1 else 0)
    ensures v.Str? ==> (r.Ok? <==> IntText.Parse(v.s).Some?)
    ensures v.Str? && r.Ok? ==> r.value == IntText.Parse(v.s).value
    ensures v.Str? && r.Err? ==> r == Err(ValueError)
    ensures (v.Null? || v.List? || v.Obj?) ==> r == Err(TypeError)
  {
    match v
    case Int(i) => Ok(i)
    case Bool(b) => Ok(if b then 1 else 0)
    case Str(s) =>
      (match IntText.Parse(s)
       case Some(n) => Ok(n)
       case None => Err(ValueError))
    case _ => Err(TypeError)
  }
}
