/** JavaScript numbers as the forms see them, over exact rationals.

    `Number(raw)` either yields a number or NaN; the forms' `Number(val) || d`
    idiom replaces every falsy number (NaN, 0 and -0) by a default; and
    `Number(x.toFixed(d))` rounds to d decimals, halves away from zero. */
module JsNumbers {

  /** The result of JavaScript's `Number(...)` on a form value. */
  datatype JsNumber = NaN | Num(value: real)

  /** NaN, 0 and -0 are the falsy numbers (-0 and 0 are the same real). */
  predicate Falsy(x: JsNumber) {
    x.NaN? || x.value == 0.0
  }

  /** JavaScript's `x || fallback` on a number. */
  function Or(x: JsNumber, fallback: real): real
  {
    if Falsy(x) then fallback else x.value
  }

  /** Applying `|| fallback` to its own result changes nothing: the result
      is either a non-falsy number, kept as it is, or the fallback itself. */
  lemma OrIdempotent(x: JsNumber, fallback: real)
    ensures Or(Num(Or(x, fallback)), fallback) == Or(x, fallback)
  {
  }

  function Min(a: real, b: real): real { if a <= b then a else b }

  function Max(a: real, b: real): real { if a >= b then a else b }

  /** 10^digits, the number of units in one. */
  function Unit(digits: nat): (u: real)
    ensures u >= 1.0
  {
    if digits == 0 then 1.0 else 10.0 * Unit(digits - 1)
  }

  /** Nearest integer to a non-negative x, halves rounded up. */
  function RoundHalfUp(x: real): int
  {
    (x + 0.5).Floor
  }

  /** x rounded to a multiple of 1/unit; a tie is broken away from zero. */
  function RoundToUnit(x: real, unit: real): real
    requires unit > 0.0
  {
    if x < 0.0 then -(RoundHalfUp(-x * unit) as real / unit)
    else RoundHalfUp(x * unit) as real / unit
  }

  /** `Number(x.toFixed(digits))`: x rounded to `digits` decimals, a tie
      broken away from zero, as `toFixed` does for an exact value. */
  function ToFixed(x: real, digits: nat): real
  {
    RoundToUnit(x, Unit(digits))
  }

  lemma UnfoldNonNegative(x: real, unit: real)
    requires x >= 0.0 && unit > 0.0
    ensures RoundToUnit(x, unit) == RoundHalfUp(x * unit) as real / unit
  {
  }

  lemma UnfoldNegative(x: real, unit: real)
    requires x < 0.0 && unit > 0.0
    ensures RoundToUnit(x, unit) == -(RoundHalfUp(-x * unit) as real / unit)
  {
  }

  lemma DivideBounds(lo: real, v: real, hi: real, unit: real)
    requires unit > 0.0 && lo < v <= hi
    ensures lo / unit < v / unit <= hi / unit
  {
    assert v / unit - lo / unit == (v - lo) / unit;
    assert hi / unit - v / unit == (hi - v) / unit;
  }

  lemma ScaleBack(x: real, unit: real)
    requires unit > 0.0
    ensures (x * unit - 0.5) / unit == x - 1.0 / (2.0 * unit)
    ensures (x * unit + 0.5) / unit == x + 1.0 / (2.0 * unit)
  {
  }

  lemma DivideMul(n: real, unit: real)
    requires unit > 0.0
    ensures (n / unit) * unit == n
  {
  }

  lemma MulMonotone(x: real, y: real, unit: real)
    requires unit > 0.0 && x <= y
    ensures x * unit <= y * unit
  {
  }

  lemma DivMonotone(a: real, b: real, unit: real)
    requires unit > 0.0 && a <= b
    ensures a / unit <= b / unit
  {
  }

  lemma RoundHalfUpMonotone(a: real, b: real)
    requires a <= b
    ensures RoundHalfUp(a) <= RoundHalfUp(b)
  {
  }

  /** Rounding never moves a non-negative value by more than half a unit, and
      a tie goes up. */
  lemma RoundToUnitError(x: real, unit: real)
    requires x >= 0.0 && unit > 0.0
    ensures x - 1.0 / (2.0 * unit) < RoundToUnit(x, unit) <= x + 1.0 / (2.0 * unit)
  {
    var n := RoundHalfUp(x * unit);
    DivideBounds(x * unit - 0.5, n as real, x * unit + 0.5, unit);
    ScaleBack(x, unit);
  }

  /** Rounding keeps the sign of its argument. */
  lemma RoundToUnitSign(x: real, unit: real)
    requires unit > 0.0
    ensures x >= 0.0 ==> RoundToUnit(x, unit) >= 0.0
    ensures x <= 0.0 ==> RoundToUnit(x, unit) <= 0.0
  {
    if x >= 0.0 {
      MulMonotone(0.0, x, unit);
      DivMonotone(0.0, RoundHalfUp(x * unit) as real, unit);
    } else {
      MulMonotone(0.0, -x, unit);
      DivMonotone(0.0, RoundHalfUp(-x * unit) as real, unit);
    }
  }

  /** A value that is already a multiple of 1/unit is left unchanged. */
  lemma RoundToUnitOfGrid(n: int, unit: real)
    requires unit > 0.0
    ensures RoundToUnit(n as real / unit, unit) == n as real / unit
  {
    var x := n as real / unit;
    DivideMul(n as real, unit);
    if n >= 0 {
      DivMonotone(0.0, n as real, unit);
      assert 0.0 / unit == 0.0;
      assert x >= 0.0;
      UnfoldNonNegative(x, unit);
      assert RoundHalfUp(x * unit) == n;
    } else {
      DivMonotone(n as real, 0.0, unit);
      assert x < 0.0 by { assert x * unit == n as real; }
      UnfoldNegative(x, unit);
      assert -x * unit == (-n) as real;
      assert RoundHalfUp(-x * unit) == -n;
    }
  }

  /** Rounding twice is rounding once. */
  lemma RoundToUnitIdempotent(x: real, unit: real)
    requires unit > 0.0
    ensures RoundToUnit(RoundToUnit(x, unit), unit) == RoundToUnit(x, unit)
  {
    if x < 0.0 {
      var m := RoundHalfUp(-x * unit);
      assert RoundToUnit(x, unit) == (-m) as real / unit;
      RoundToUnitOfGrid(-m, unit);
    } else {
      RoundToUnitOfGrid(RoundHalfUp(x * unit), unit);
    }
  }

  /** Rounding to a fixed unit preserves order. */
  lemma RoundToUnitMonotone(x: real, y: real, unit: real)
    requires x <= y && unit > 0.0
    ensures RoundToUnit(x, unit) <= RoundToUnit(y, unit)
  {
    if x < 0.0 && y < 0.0 {
      MulMonotone(-y, -x, unit);
      RoundHalfUpMonotone(-y * unit, -x * unit);
      var a, b := RoundHalfUp(-y * unit), RoundHalfUp(-x * unit);
      DivMonotone(a as real, b as real, unit);
    } else if x < 0.0 {
      RoundToUnitSign(x, unit);
      RoundToUnitSign(y, unit);
    } else {
      MulMonotone(x, y, unit);
      RoundHalfUpMonotone(x * unit, y * unit);
      var a, b := RoundHalfUp(x * unit), RoundHalfUp(y * unit);
      DivMonotone(a as real, b as real, unit);
    }
  }
}
