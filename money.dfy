/**
 * Currency rounding and summation (lib/calc.ts, `roundCurrency` and `sum`),
 * over exact reals. `Math.round` rounds halves upward, so rounding to cents is
 * floor(100 x + 1/2) / 100; the machine-epsilon nudge has no exact counterpart.
 */
module Money {

  /** `x` is a whole number of cents. */
  predicate IsCents(x: real) {
    (x * 100.0).Floor as real == x * 100.0
  }

  /** Rounds to the nearest cent, halves upward. */
  function RoundCurrency(x: real): (r: real)
    ensures IsCents(r)
    ensures x - 0.005 < r <= x + 0.005
  {
    var k := (x * 100.0 + 0.5).Floor;
    assert (k as real / 100.0) * 100.0 == k as real;
    k as real / 100.0
  }

  /** Left fold with `+` from 0, as `values.reduce((a, b) => a + b, 0)`. */
  function Sum(values: seq<real>): real {
    if |values| == 0 then 0.0 else Sum(values[..|values| - 1]) + values[|values| - 1]
  }

  lemma CentsAdd(a: real, b: real)
    requires IsCents(a) && IsCents(b)
    ensures IsCents(a + b) && IsCents(a - b)
  {
    var m, n := (a * 100.0).Floor, (b * 100.0).Floor;
    assert a * 100.0 == m as real && b * 100.0 == n as real;
    assert (a + b) * 100.0 == (m + n) as real;
    assert ((m + n) as real).Floor == m + n;
    assert (a - b) * 100.0 == (m - n) as real;
    assert ((m - n) as real).Floor == m - n;
  }

  /** The rounded value is the only whole number of cents within half a cent of the input (ties upward). */
  lemma RoundCurrencyUnique(x: real, c: real)
    requires IsCents(c) && x - 0.005 < c <= x + 0.005
    ensures RoundCurrency(x) == c
  {
    var m := (c * 100.0).Floor;
    var k := (x * 100.0 + 0.5).Floor;
    assert m as real <= x * 100.0 + 0.5;
    assert m <= k;
    assert x * 100.0 + 0.5 < m as real + 1.0;
    assert k <= m;
    assert RoundCurrency(x) == k as real / 100.0;
  }

  /** A whole number of cents is left unchanged. */
  lemma RoundCurrencyOfCents(c: real)
    requires IsCents(c)
    ensures RoundCurrency(c) == c
  {
    RoundCurrencyUnique(c, c);
  }

  lemma RoundCurrencyIdempotent(x: real)
    ensures RoundCurrency(RoundCurrency(x)) == RoundCurrency(x)
  {
    RoundCurrencyOfCents(RoundCurrency(x));
  }

  /** Subtracting whole cents commutes with rounding. */
  lemma RoundCurrencyShift(x: real, c: real)
    requires IsCents(c)
    ensures RoundCurrency(x - c) == RoundCurrency(x) - c
  {
    CentsAdd(RoundCurrency(x), c);
    RoundCurrencyUnique(x - c, RoundCurrency(x) - c);
  }

  /** A sum of whole-cent values is a whole number of cents. */
  lemma {:induction false} SumOfCents(values: seq<real>)
    requires forall i :: 0 <= i < |values| ==> IsCents(values[i])
    ensures IsCents(Sum(values))
  {
    if |values| == 0 {
      assert Sum(values) * 100.0 == 0 as real;
    } else {
      var init := values[..|values| - 1];
      assert forall i :: 0 <= i < |init| ==> init[i] == values[i];
      SumOfCents(init);
      CentsAdd(Sum(init), values[|values| - 1]);
    }
  }

  /** Exact addition is associative, so the fold order does not matter. */
  lemma {:induction false} SumConcat(a: seq<real>, b: seq<real>)
    ensures Sum(a + b) == Sum(a) + Sum(b)
  {
    if |b| == 0 {
      assert a + b == a;
    } else {
      var ab := a + b;
      assert ab[..|ab| - 1] == a + b[..|b| - 1];
      SumConcat(a, b[..|b| - 1]);
    }
  }

  /** A sum of zeros is zero. */
  lemma {:induction false} SumOfZeros(values: seq<real>)
    requires forall i :: 0 <= i < |values| ==> values[i] == 0.0
    ensures Sum(values) == 0.0
  {
    if |values| > 0 {
      var init := values[..|values| - 1];
      assert forall i :: 0 <= i < |init| ==> init[i] == values[i];
      SumOfZeros(init);
    }
  }

  /** Scaling every term scales the sum. */
  lemma {:induction false} SumScaled(values: seq<real>, scaled: seq<real>, factor: real)
    requires |scaled| == |values|
    requires forall i :: 0 <= i < |values| ==> scaled[i] == values[i] * factor
    ensures Sum(scaled) == Sum(values) * factor
  {
    if |values| > 0 {
      var init, init' := values[..|values| - 1], scaled[..|scaled| - 1];
      assert forall i :: 0 <= i < |init| ==> init'[i] == init[i] * factor;
      SumScaled(init, init', factor);
      assert Sum(scaled) == Sum(init) * factor + values[|values| - 1] * factor;
    }
  }

  /** Rounding three amounts separately differs from rounding their sum by at most one cent. */
  lemma ThreeRoundingsWithinCent(a: real, b: real, c: real)
    ensures -0.01 <= RoundCurrency(a) + RoundCurrency(b) + RoundCurrency(c) - RoundCurrency(a + b + c) <= 0.01
  {
    var ka, kb, kc := (a * 100.0 + 0.5).Floor, (b * 100.0 + 0.5).Floor, (c * 100.0 + 0.5).Floor;
    var kd := ((a + b + c) * 100.0 + 0.5).Floor;
    assert ka as real <= a * 100.0 + 0.5 < ka as real + 1.0;
    assert kb as real <= b * 100.0 + 0.5 < kb as real + 1.0;
    assert kc as real <= c * 100.0 + 0.5 < kc as real + 1.0;
    assert kd as real <= (a + b + c) * 100.0 + 0.5 < kd as real + 1.0;
    assert -2 < ka + kb + kc - kd < 2;
    assert RoundCurrency(a) + RoundCurrency(b) + RoundCurrency(c) - RoundCurrency(a + b + c)
      == (ka + kb + kc - kd) as real / 100.0;
  }

  /** Whole cents times a whole number is whole cents. */
  lemma CentsTimesWhole(c: real, n: int)
    requires IsCents(c)
    ensures IsCents(c * (n as real))
  {
    var m := (c * 100.0).Floor;
    assert c * 100.0 == m as real;
    assert (c * (n as real)) * 100.0 == (m * n) as real;
    assert ((m * n) as real).Floor == m * n;
  }
}
