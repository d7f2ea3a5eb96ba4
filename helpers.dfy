/** `clamp` of backend/app/utils/helpers.py. */
module Helpers {

  /** `max(min_val, min(value, max_val))`. */
  function Clamp(value: real, lo: real, hi: real): (r: real)
    ensures lo <= hi ==> lo <= r <= hi
    ensures lo <= value <= hi ==> r == value
    ensures lo <= hi && value < lo ==> r == lo
    ensures lo <= hi && value > hi ==> r == hi
    ensures lo > hi ==> r == lo
  {
    var m := if value <= hi then value else hi;
    if lo >= m then lo else m
  }

  /** Clamping twice is clamping once. */
  lemma ClampIdempotent(value: real, lo: real, hi: real)
    ensures Clamp(Clamp(value, lo, hi), lo, hi) == Clamp(value, lo, hi)
  {
  }

  /** Clamping never reverses the order of two values. */
  lemma ClampMonotone(a: real, b: real, lo: real, hi: real)
    requires a <= b
    ensures Clamp(a, lo, hi) <= Clamp(b, lo, hi)
  {
  }
}
