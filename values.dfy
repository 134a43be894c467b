/** Dynamically typed values as they appear in the contact records.

    A record is a Python dict from field names to JSON-like values.  The model
    distinguishes exactly what the pipeline inspects: `None`, a string, and
    anything else (a number or a boolean), together with its Python truthiness.
 */
module Values {

  datatype Option<+T> = None | Some(value: T) {
    function GetOr(default: T): T {
      match this
      case Some(v) => v
      case None => default
    }
  }

  datatype Result<+R, +E> = Success(value: R) | Failure(error: E)

  /** A JSON value: `null`, a string, or some other (non-string) value whose
      Python truthiness is recorded (`0` and `false` are falsy). */
  datatype Val = Null | Str(s: string) | Other(truthy: bool)

  type Record = map<string, Val>

  /** Python truthiness: `None` and `""` are falsy. */
  predicate Truthy(v: Val) {
    match v
    case Null => false
    case Str(s) => s != ""
    case Other(t) => t
  }

  /** `d.get(k)`: a missing key reads as `None`. */
  function Get(d: Record, k: string): (v: Val)
    ensures k !in d ==> v == Null
    ensures k in d ==> v == d[k]
  {
    if k in d then d[k] else Null
  }

  /** An `Optional[str]` attribute of a Pydantic schema, seen as a value. */
  function OptStr(o: Option<string>): (v: Val)
    ensures v.Null? <==> o.None?
    ensures o.Some? ==> v == Str(o.value)
  {
    match o
    case None => Null
    case Some(s) => Str(s)
  }
}
