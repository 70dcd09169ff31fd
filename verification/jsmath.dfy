/**
 * The few JavaScript numeric primitives the planning code relies on, over
 * exact reals: `Math.round`, `Math.ceil` of a quotient by a positive integer,
 * and the "round to two decimals" idiom `Math.round(x * 100) / 100`.
 */
module JsMath {

  /** `Math.round(x)`: the nearest integer, halves rounded towards +infinity. */
  function JsRound(x: real): int {
    (x + 0.5).Floor
  }

  /** `Math.round(x * 100) / 100`. */
  function Round2(x: real): real {
    JsRound(x * 100.0) as real / 100.0
  }

  /** `Math.ceil(n / d)` for an integer `n` and a positive integer `d`. */
  function CeilDiv(n: int, d: int): int
    requires d > 0
  {
    if n % d == 0 then n / d else n / d + 1
  }

  lemma JsRoundIsNearest(x: real)
    ensures x - 0.5 < JsRound(x) as real <= x + 0.5
  {
  }

  /** Rounding to two decimals moves a value by at most half a hundredth. */
  lemma Round2Error(x: real)
    ensures -0.005 <= Round2(x) - x <= 0.005
  {
    JsRoundIsNearest(x * 100.0);
  }

  lemma Round2Zero()
    ensures Round2(0.0) == 0.0
  {
    assert JsRound(0.0) == 0;
  }

  /** `CeilDiv` is the least integer `q` with `n <= d * q`. */
  lemma CeilDivBounds(n: int, d: int)
    requires d > 0
    ensures d * (CeilDiv(n, d) - 1) < n <= d * CeilDiv(n, d)
  {
  }
}
