/**
 * The JavaScript values the application passes around: JSON-like records
 * read from and written to the hosted backend, plus the browser `File`
 * objects a form may hold. Shared by every other module.
 */
module JsValues {

  datatype Option<+T> = None | Some(value: T)

  datatype Result<+T, +E> = Success(value: T) | Failure(error: E)

  /** A JavaScript value. Numbers are reals: floating-point rounding and NaN
      are not modelled. `File` stands for a browser File/Blob object. */
  datatype Value =
    | Null
    | Bool(b: bool)
    | Num(n: real)
    | Str(s: string)
    | Obj(fields: map<string, Value>)
    | File(name: string)

  /** A plain object. A key that is absent stands for `undefined`; the object
      spread `{...a, ...b}` is `a + b` (the right operand wins). */
  type Record = map<string, Value>

  /** JavaScript truthiness of a value that is present. */
  predicate Truthy(v: Value)
  {
    match v
    case Null => false
    case Bool(b) => b
    case Num(n) => n != 0.0
    case Str(s) => s != ""
    case Obj(_) => true
    case File(_) => true
  }

  /** `r.k` is truthy (an absent key is `undefined`, which is falsy). */
  predicate FieldTruthy(r: Record, k: string)
  {
    k in r && Truthy(r[k])
  }

  /** `r.k || d` */
  function FieldOr(r: Record, k: string, d: Value): Value
  {
    if FieldTruthy(r, k) then r[k] else d
  }

  /** `r.k`, with `None` for `undefined`. */
  function Field(r: Record, k: string): Option<Value>
  {
    if k in r then Some(r[k]) else None
  }

  /** Sets `k` to `v`, where `None` (`undefined`) leaves the key out. */
  function SetField(r: Record, k: string, v: Option<Value>): (r': Record)
    ensures Field(r', k) == v
    ensures forall j :: j != k ==> Field(r', j) == Field(r, j)
    ensures r'.Keys <= r.Keys + {k}
  {
    match v
    case Some(x) => r[k := x]
    case None => r - {k}
  }

  /** An ASCII decimal digit, as `\d` and `parseInt` read one. */
  predicate IsDigit(c: char)
  {
    '0' <= c <= '9'
  }

  /** The decimal text of a number, as a template literal prints it. */
  function Decimal(n: nat): (s: string)
    ensures |s| > 0
    ensures forall k :: 0 <= k < |s| ==> IsDigit(s[k])
  {
    var d := ['0' + (n % 10) as char];
    if n < 10 then d else Decimal(n / 10) + d
  }

  /** `typeof v === 'string'` */
  predicate IsString(v: Value)
  {
    v.Str?
  }
}
