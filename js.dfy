/** JavaScript value semantics that the dashboard's expressions rely on:
    numbers with NaN and infinities, truthiness, `x || d`, `>` and `/`. */
module Js {

  datatype Option<T> = None | Some(value: T)

  /** A JavaScript number. Negative zero is not distinguished from zero. */
  datatype Number = Finite(value: real) | Infinity(negative: bool) | NaN

  /** Truthiness of a number: `0` and `NaN` are falsy, everything else is truthy. */
  predicate Truthy(n: Number) {
    match n
    case Finite(r) => r != 0.0
    case Infinity(_) => true
    case NaN => false
  }

  /** Truthiness of a string: only the empty string is falsy. */
  predicate NonEmpty(s: string) {
    s != ""
  }

  /** `n || d` where `d` is a numeric literal: keeps a truthy `n`, otherwise falls back to `d`. */
  function OrElse(n: Number, d: real): (r: Number)
    ensures r == n || r == Finite(d)
    ensures r != NaN
    ensures Truthy(n) ==> r == n
    ensures !Truthy(n) ==> r == Finite(d)
    ensures d != 0.0 ==> Truthy(r)
  {
    if Truthy(n) then n else Finite(d)
  }

  /** `n > c` for a finite constant `c`; every comparison with `NaN` is false. */
  predicate Greater(n: Number, c: real) {
    match n
    case Finite(r) => r > c
    case Infinity(negative) => !negative
    case NaN => false
  }

  /** `a / b` on two finite numbers, following IEEE 754: a zero divisor gives an
      infinity signed like the dividend, or `NaN` for `0 / 0`. */
  function Divide(a: real, b: real): (q: Number)
    ensures b != 0.0 ==> q.Finite? && q.value * b == a
    ensures b == 0.0 ==> (q == NaN <==> a == 0.0)
    ensures b == 0.0 && a != 0.0 ==> q == Infinity(a < 0.0)
  {
    if b != 0.0 then Finite(a / b)
    else if a == 0.0 then NaN
    else Infinity(a < 0.0)
  }

  /** `n * c` for a positive finite constant `c`. */
  function Scale(n: Number, c: real): (r: Number)
    requires c > 0.0
    ensures r.Finite? <==> n.Finite?
    ensures r == NaN <==> n == NaN
    ensures n.Finite? ==> r.value == n.value * c
    ensures n.Infinity? ==> r == n
  {
    match n
    case Finite(v) => Finite(v * c)
    case _ => n
  }
}
