/** The few JavaScript number semantics the dialogs and tables rely on. */
module JsNumber {
  import opened Wrappers

  /** JavaScript's `%` on integers: truncating division, so the remainder
      takes the sign of the dividend (Dafny's own `%` is Euclidean). */
  function Rem(a: int, b: int): (r: int)
    requires b > 0
    ensures a >= 0 ==> r == a % b
    ensures a < 0 ==> -b < r <= 0
  {
    if a >= 0 then a % b
    else -((-a) % b)
  }

  /** Negating the dividend negates the remainder, unlike Dafny's `%`. */
  lemma RemIsOdd(a: int, b: int)
    requires b > 0
    ensures Rem(-a, b) == -Rem(a, b)
  {
  }

  /** JavaScript truthiness of a possibly missing number: `null`, `undefined`
      and `0` are falsy. */
  predicate Truthy(x: Option<real>) {
    x.Some? && x.value != 0.0
  }

  predicate TruthyInt(x: Option<int>) {
    x.Some? && x.value != 0
  }

  /** `Math.round` on an exact value: the nearest integer, halves rounded
      toward positive infinity. */
  function Round(x: real): (r: real)
    ensures r == r.Floor as real
    ensures x - 0.5 < r <= x + 0.5
  {
    (x + 0.5).Floor as real
  }
}
