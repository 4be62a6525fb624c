/** Plain JavaScript values as the front end handles them. */
module Values {

  /** `null`/`undefined` or a value; failure-compatible so parsers can use `:-`. */
  datatype Option<+T> = None | Some(value: T) {
    predicate IsFailure() { None? }

    function PropagateFailure<U>(): Option<U>
      requires None?
    {
      None
    }

    function Extract(): T
      requires Some?
    {
      value
    }
  }

  /** A scalar held by a field of a plain object. */
  datatype Field = Null | Num(n: int) | Text(s: string)

  /** A plain object: field name to value. A key that is absent reads as `undefined`. */
  type Record = map<string, Field>

  /** JavaScript truthiness of a scalar: `null`, `0` and `""` are falsy. */
  predicate Truthy(f: Field) {
    match f
    case Null => false
    case Num(n) => n != 0
    case Text(s) => s != ""
  }

  /** `r?.key`, with `None` standing for `undefined`. */
  function Prop(r: Option<Record>, key: string): Option<Field> {
    if r.Some? && key in r.value then Some(r.value[key]) else None
  }

  /** `v || fallback` on a possibly undefined scalar. */
  function OrElse(v: Option<Field>, fallback: Field): Field {
    if v.Some? && Truthy(v.value) then v.value else fallback
  }

  /** Truthiness of an optional string: `undefined` and `""` are falsy. */
  predicate Present(s: Option<string>) {
    s.Some? && s.value != ""
  }
}
