/**
  The slice of JavaScript number semantics the estimator relies on: a value is
  either a finite number or NaN (what `parseFloat` yields for text that is not a
  number); arithmetic propagates NaN; every comparison with NaN is false;
  `Math.floor` and `Number.prototype.toFixed` act on the exact value.
  Binary floating-point rounding and the infinities are not modelled.
 */
module JsNumber {

  datatype Num = Finite(value: real) | NaN

  predicate IsInteger(x: real) {
    x == x.Floor as real
  }

  /** `x * y` */
  function Mul(x: Num, y: Num): Num {
    if x.NaN? || y.NaN? then NaN else Finite(x.value * y.value)
  }

  /** `x / y`, for a divisor that is NaN or not zero */
  function Div(x: Num, y: Num): Num
    requires y.Finite? ==> y.value != 0.0
  {
    if x.NaN? || y.NaN? then NaN else Finite(x.value / y.value)
  }

  /** `x > k`: false whenever `x` is NaN */
  predicate Greater(x: Num, k: real) {
    x.Finite? && x.value > k
  }

  /** `Math.floor(x)`: the largest integer not above `x`; NaN stays NaN */
  function Floor(x: Num): (r: Num)
    ensures r.NaN? <==> x.NaN?
    ensures r.Finite? ==> IsInteger(r.value) && r.value <= x.value < r.value + 1.0
  {
    if x.NaN? then NaN else Finite(x.value.Floor as real)
  }

  /**
    The integer `toFixed` picks: the nearest one, and on a tie the one farther
    from zero (toFixed sets the sign aside and then picks the larger candidate).
   */
  function RoundHalfAway(x: real): (n: int)
    ensures x - 0.5 <= n as real <= x + 0.5
    ensures n as real == x + 0.5 ==> x >= 0.0
    ensures n as real == x - 0.5 ==> x <= 0.0
  {
    if x < 0.0 then -((-x + 0.5).Floor) else (x + 0.5).Floor
  }

  /** The number printed by `x.toFixed(0)` ("NaN" for NaN) */
  function ToFixed0(x: Num): (r: Num)
    ensures r.NaN? <==> x.NaN?
    ensures r.Finite? ==> IsInteger(r.value) && x.value - 0.5 <= r.value <= x.value + 0.5
  {
    if x.NaN? then NaN else Finite(RoundHalfAway(x.value) as real)
  }

  /** The number printed by `x.toFixed(1)`, counted in tenths */
  function ToFixed1Tenths(x: real): (tenths: int)
    ensures x - 0.05 <= tenths as real / 10.0 <= x + 0.05
  {
    RoundHalfAway(10.0 * x)
  }

  /** `Math.floor` never moves down as its argument grows */
  lemma FloorMonotone(x: real, y: real)
    requires x <= y
    ensures x.Floor <= y.Floor
  {
  }

  /** Rounding as `toFixed` does never moves down as its argument grows */
  lemma RoundHalfAwayMonotone(x: real, y: real)
    requires x <= y
    ensures RoundHalfAway(x) <= RoundHalfAway(y)
  {
    if 0.0 <= x {
      FloorMonotone(x + 0.5, y + 0.5);
    } else if y < 0.0 {
      FloorMonotone(-y + 0.5, -x + 0.5);
    } else {
      FloorMonotone(0.5, -x + 0.5);
      FloorMonotone(0.5, y + 0.5);
    }
  }
}
