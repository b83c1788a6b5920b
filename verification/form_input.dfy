/**
 * What a form field holds when a front-end validator sees it. The text of a
 * field is abstracted to what `parseFloat` makes of it; what matters besides
 * is JavaScript truthiness, under which every non-empty string is truthy
 * (the string "0" included) and the number 0 is falsy.
 */
module FormInput {
  import opened Wrappers

  datatype FieldInput =
    | Missing                    // null or undefined
    | EmptyText                  // ''
    | Text(parsed: Option<real>) // a non-empty string; None when parseFloat gives NaN
    | Number(value: real)        // a number

  /** JavaScript truthiness of the field value. */
  predicate Truthy(f: FieldInput) {
    match f
    case Missing => false
    case EmptyText => false
    case Text(_) => true
    case Number(v) => v != 0.0
  }

  /** `parseFloat(String(f))`, with NaN as None. */
  function ParseFloat(f: FieldInput): (n: Option<real>)
    ensures f.Number? ==> n == Some(f.value)
    ensures !Truthy(f) ==> n.None? || n == Some(0.0)
  {
    match f
    case Missing => None
    case EmptyText => None
    case Text(p) => p
    case Number(v) => Some(v)
  }

  /** The field parses to a number inside [lo, hi]. */
  predicate ParsesWithin(f: FieldInput, lo: real, hi: real) {
    ParseFloat(f).Some? && lo <= ParseFloat(f).value <= hi
  }

  /** The field parses to a number inside (lo, hi]. */
  predicate ParsesAboveUpTo(f: FieldInput, lo: real, hi: real) {
    ParseFloat(f).Some? && lo < ParseFloat(f).value <= hi
  }
}
