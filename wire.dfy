/**
 * Values as the dashboard receives them from its backend: optional fields,
 * monetary fields that may arrive as numbers or as numeric strings, and the
 * outcome of one request.  JavaScript's truthiness tests (`x || d`, `x ?? d`,
 * `!x`) are written out here once.
 */
module Wire {

  datatype Option<+T> = None | Some(value: T)

  /** The outcome of one backend request: its parsed body, or the error it raised. */
  datatype Response<+T> = Ok(value: T) | Failed(message: string)

  /**
   * A monetary field on the wire.  `NumericText(v)` is a non-empty string whose
   * `Number(...)` value is `v`; `EmptyText` is the empty string.  Strings that
   * do not parse as numbers are not part of this model.
   */
  datatype WireNumber = Absent | Num(value: real) | EmptyText | NumericText(value: real)

  /** JavaScript truthiness of an optional string: present and non-empty. */
  predicate Truthy(x: Option<string>) {
    x.Some? && x.value != ""
  }

  /** `x || d` on an optional string. */
  function Or(x: Option<string>, d: string): string {
    if Truthy(x) then x.value else d
  }

  /** `x ?? d` on an optional string: only a missing value falls back. */
  function Coalesce(x: Option<string>, d: string): string {
    if x.Some? then x.value else d
  }

  /** `s || d` on a string field the backend declares as always present. */
  function OrElse(s: string, d: string): string {
    if s != "" then s else d
  }

  /** `s || null` (and `s || undefined`): the empty string is sent as "no value". */
  function NonEmpty(s: string): (r: Option<string>)
    ensures r.None? <==> s == ""
    ensures r.Some? ==> r.value == s
  {
    if s == "" then None else Some(s)
  }

  /**
   * `Number(x || 0)`, the coercion every mapper applies to a monetary field.
   * `Number(x ?? 0)` gives the same value on every wire number modelled here
   * (they differ only for values that are NaN, which are outside the model).
   */
  function Amount(w: WireNumber): (r: real)
    ensures w.Absent? || w.EmptyText? ==> r == 0.0
    ensures w.Num? || w.NumericText? ==> r == w.value
  {
    match w
    case Absent => 0.0
    case EmptyText => 0.0
    case Num(v) => v
    case NumericText(v) => v
  }

  /**
   * `typeof x === 'string' ? Number(x) : (x ?? undefined)`: how the dashboard
   * reads an optional spending threshold.  The empty string reads as 0.
   */
  function OptionalAmount(w: WireNumber): (r: Option<real>)
    ensures r.None? <==> w.Absent?
    ensures r.Some? ==> r.value == Amount(w)
  {
    match w
    case Absent => None
    case EmptyText => Some(0.0)
    case Num(v) => Some(v)
    case NumericText(v) => Some(v)
  }

  /** A threshold is "set" for an `if (x && ...)` test when it is present and non-zero. */
  predicate IsSet(x: Option<real>) {
    x.Some? && x.value != 0.0
  }
}
