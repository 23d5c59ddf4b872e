/**
 * JSON values as the browser and the backend exchange them, and the
 * JavaScript reading rules the frontend applies to them.
 */
module Json {
  import opened Wrappers

  datatype Value =
    | Null
    | Bool(b: bool)
    | Num(n: real)
    | Str(s: string)
    | Arr(items: seq<Value>)
    | Obj(fields: map<string, Value>)

  /** A plain object. A key that is absent reads as `undefined`. */
  type Record = map<string, Value>

  /** JavaScript truthiness of a value (an empty array or object is truthy). */
  predicate Truthy(v: Value) {
    match v
    case Null => false
    case Bool(b) => b
    case Num(n) => n != 0.0
    case Str(s) => s != ""
    case _ => true
  }

  /** Truthiness of the property read `r[k]`; `undefined` is falsy. */
  predicate FieldTruthy(r: Record, k: string) {
    k in r && Truthy(r[k])
  }

  /** The property read `r[k]`, with `None` for `undefined`. */
  function Get(r: Record, k: string): Option<Value> {
    if k in r then Some(r[k]) else None
  }

  /** `r[k] || 0` on a numeric channel: a missing, null or zero value reads as 0. */
  function NumOr0(r: Record, k: string): real {
    if k in r && r[k].Num? then r[k].n else 0.0
  }

  /** `a || b` on two property reads. */
  function Or(a: Option<Value>, b: Option<Value>): Option<Value> {
    if a.Some? && Truthy(a.value) then a else b
  }

  /**
   * Adds property `k` to an object literal under construction. An `undefined`
   * value is dropped, as `JSON.stringify` does before the request is sent.
   */
  function WithOpt(r: Record, k: string, v: Option<Value>): Record {
    if v.Some? then r[k := v.value] else r
  }

  /** The JavaScript number that `x / 1000` yields, serialised: NaN becomes `null`. */
  function MillisToSeconds(v: Option<Value>): Value {
    if v.Some? && v.value.Num? then Num(v.value.n / 1000.0) else Null
  }
}
