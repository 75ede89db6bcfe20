/**
 The JavaScript values the weather arrays hold, and the few JavaScript
 operators the app applies to them. Floating point is modelled by `real`;
 null and undefined are one value, `Absent`, and NaN is kept distinct because
 not every caller filters it out.
 */
module JsValues {

  datatype Value = Absent | NaN | Num(x: real)

  /** JavaScript truthiness of a number: null, undefined, NaN and 0 are falsy. */
  predicate Truthy(v: Value) {
    v.Num? && v.x != 0.0
  }

  /** `v || d` for a numeric `v` and a numeric default `d`. */
  function OrDefault(v: Value, d: real): (r: real)
    ensures Truthy(v) ==> r == v.x
    ensures !Truthy(v) ==> r == d
  {
    if v.Num? && v.x != 0.0 then v.x else d
  }

  /** `val !== null && val !== undefined && !isNaN(val)`. */
  predicate IsNumber(v: Value) {
    v.Num?
  }

  /** `Math.round`: rounds half-way cases towards positive infinity. */
  function Round(x: real): (r: int)
    ensures x - 0.5 < r as real <= x + 0.5
  {
    (x + 0.5).Floor
  }

  /** Math.round of an integer is that integer. */
  lemma RoundOfInteger(n: int)
    ensures Round(n as real) == n
  {
  }

  /** `Math.min(a, b)` on two values that are not null: NaN is contagious. */
  function Min2(a: Value, b: Value): (r: Value)
    requires !a.Absent? && !b.Absent?
    ensures r.NaN? <==> a.NaN? || b.NaN?
    ensures r.Num? ==> (r == a || r == b) && r.x <= a.x && r.x <= b.x
  {
    if a.NaN? || b.NaN? then NaN
    else if a.x <= b.x then a else b
  }

  /** `Math.max(a, b)` on two values that are not null: NaN is contagious. */
  function Max2(a: Value, b: Value): (r: Value)
    requires !a.Absent? && !b.Absent?
    ensures r.NaN? <==> a.NaN? || b.NaN?
    ensures r.Num? ==> (r == a || r == b) && a.x <= r.x && b.x <= r.x
  {
    if a.NaN? || b.NaN? then NaN
    else if a.x >= b.x then a else b
  }
}
