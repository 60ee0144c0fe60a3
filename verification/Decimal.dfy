/** big.js decimals as reals, with its rounding written out: `toFixed` and division round to
    the nearest multiple of 1 / unit, halves away from zero; `Math.round` sends halves up. */
module Decimal {

  /** 10^6 is the base units of a token; 10^9 and 10^20 are the decimals kept by `toFixed(_, 9)`
      and by a big.js division. */
  const E6: real := 1_000_000.0
  const E9: real := 1_000_000_000.0
  const E20: real := 100_000_000_000_000_000_000.0

  function RoundHalfUp(x: real): int
  {
    if x >= 0.0 then (x + 0.5).Floor else -((0.5 - x).Floor)
  }

  function JsRound(x: real): int
  {
    (x + 0.5).Floor
  }

  /** Exact product and quotient. */
  function Times(x: real, y: real): real { x * y }
  function Over(x: real, y: real): real requires y != 0.0 { x / y }

  function ToFixed(v: real, unit: real): real
    requires unit > 0.0
  {
    Over(RoundHalfUp(Times(v, unit)) as real, unit)
  }

  function Div(x: real, y: real): real
    requires y != 0.0
  {
    ToFixed(Over(x, y), E20)
  }

  function Abs(x: real): real { if x < 0.0 then -x else x }

  lemma RoundError(x: real)
    ensures -0.5 <= RoundHalfUp(x) as real - x <= 0.5
    ensures -0.5 < JsRound(x) as real - x <= 0.5
  {}

  lemma RoundMonotone(x: real, y: real)
    requires x <= y
    ensures RoundHalfUp(x) <= RoundHalfUp(y)
    ensures JsRound(x) <= JsRound(y)
  {}

  /** Whole units pass through rounding: an integer is kept, and can be taken out first. */
  lemma RoundWhole(x: real, k: int)
    ensures RoundHalfUp(k as real) == k && JsRound(k as real) == k
    ensures JsRound(x - k as real) == JsRound(x) - k
    ensures 0.0 <= x && k as real <= x ==> RoundHalfUp(x - k as real) == RoundHalfUp(x) - k
  {}

  // ---------- arithmetic of reals, one step each ----------

  lemma OverTimes(a: real, u: real)
    requires u != 0.0
    ensures Times(Over(a, u), u) == a
    ensures Over(Times(a, u), u) == a
  {}

  lemma TimesMonotone(a: real, b: real, u: real)
    requires u >= 0.0 && a <= b
    ensures Times(a, u) <= Times(b, u)
  {}

  lemma TimesAdd(a: real, b: real, u: real)
    ensures Times(a + b, u) == Times(a, u) + Times(b, u)
    ensures Times(0.0, u) == 0.0 && Times(1.0, u) == u
  {}

  lemma OverAdd(a: real, b: real, u: real)
    requires u != 0.0
    ensures Over(a + b, u) == Over(a, u) + Over(b, u)
    ensures Over(0.0, u) == 0.0 && Over(u, u) == 1.0
  {
    OverSub(a + b, b, u);
  }

  lemma OverMonotone(a: real, b: real, u: real)
    requires u > 0.0 && a <= b
    ensures Over(a, u) <= Over(b, u)
  {
    OverTimes(a, u);
    OverTimes(b, u);
    if Over(a, u) > Over(b, u) {
      StrictTimes(Over(b, u), Over(a, u), u);
    }
  }

  lemma StrictTimes(a: real, b: real, u: real)
    requires u > 0.0 && a < b
    ensures Times(a, u) < Times(b, u)
  {}

  lemma OverSub(a: real, b: real, u: real)
    requires u != 0.0
    ensures Over(a - b, u) == Over(a, u) - Over(b, u)
  {}

  /** |a - b| <= e carries over to the quotients. */
  lemma OverError(a: real, b: real, e: real, u: real)
    requires u > 0.0 && Abs(a - b) <= e
    ensures Abs(Over(a, u) - Over(b, u)) <= Over(e, u)
  {
    OverSub(a, b, u);
    OverMonotone(a - b, e, u);
    OverMonotone(-e, a - b, u);
    OverSub(0.0, e, u);
    assert Over(0.0, u) == 0.0;
  }

  lemma TimesError(a: real, b: real, e: real, u: real)
    requires u >= 0.0 && Abs(a - b) <= e
    ensures Abs(Times(a, u) - Times(b, u)) <= Times(e, u)
  {
    TimesMonotone(a - b, e, u);
    TimesMonotone(b - a, e, u);
    assert Times(a - b, u) == Times(a, u) - Times(b, u);
    assert Times(b - a, u) == Times(b, u) - Times(a, u);
  }

  // ---------- toFixed and division ----------

  lemma ToFixedError(v: real, unit: real)
    requires unit > 0.0
    ensures Abs(ToFixed(v, unit) - v) <= Over(0.5, unit)
  {
    RoundError(Times(v, unit));
    OverError(RoundHalfUp(Times(v, unit)) as real, Times(v, unit), 0.5, unit);
    OverTimes(v, unit);
  }

  lemma ToFixedMonotone(v: real, w: real, unit: real)
    requires unit > 0.0 && v <= w
    ensures ToFixed(v, unit) <= ToFixed(w, unit)
  {
    TimesMonotone(v, w, unit);
    RoundMonotone(Times(v, unit), Times(w, unit));
    OverMonotone(RoundHalfUp(Times(v, unit)) as real, RoundHalfUp(Times(w, unit)) as real, unit);
  }

  /** A value with no more decimals than kept is not changed. */
  lemma ToFixedOnGrid(k: int, unit: real)
    requires unit > 0.0
    ensures ToFixed(Over(k as real, unit), unit) == Over(k as real, unit)
  {
    OverTimes(k as real, unit);
    RoundWhole(0.0, k);
  }

  lemma DivError(x: real, y: real)
    requires y != 0.0
    ensures Abs(Div(x, y) - Over(x, y)) <= Over(0.5, E20)
  {
    ToFixedError(Over(x, y), E20);
  }

  // ---------- rounding twice: a division, then nine decimals ----------

  const TEN_11: int := 100_000_000_000

  /** The division's twentieth decimal was rounded up onto a tie of the ninth. */
  predicate RoundsUpTwice(x: real)
  {
    var k := RoundHalfUp(Times(Abs(x), E20));
    k % TEN_11 == TEN_11 / 2 && k as real > Times(Abs(x), E20)
  }

  lemma FloorIs(x: real, m: int)
    requires m as real <= x < m as real + 1.0
    ensures x.Floor == m
  {}

  /** The nine decimals kept of k units of the twentieth, for k >= 0. */
  lemma NinthOf(k: nat)
    ensures ToFixed(Over(k as real, E20), E9) == Over(((k + TEN_11 / 2) / TEN_11) as real, E9)
  {
    var u, m := Times(Over(k as real, E20), E9), (k + TEN_11 / 2) / TEN_11;
    assert u * 100_000_000_000.0 == k as real;
    assert m * TEN_11 <= k + TEN_11 / 2 < m * TEN_11 + TEN_11;
    assert (m * TEN_11) as real == m as real * 100_000_000_000.0;
    FloorIs(u + 0.5, m);
  }

  lemma InTwentieths(m: int, x: real)
    ensures Abs(Over(m as real, E9) - x) <= Over(0.5, E9)
      <==> Abs(m as real * 100_000_000_000.0 - Times(x, E20)) <= 50_000_000_000.0
  {
    var d := Over(m as real, E9) - x;
    assert m as real * 100_000_000_000.0 - Times(x, E20) == d * E20;
  }

  /** k, rounded from y, goes to the multiple m of 10^11; y itself is within half of it unless
      k is the tie below m and lies above y. */
  lemma NearTie(k: nat, y: real)
    requires -0.5 <= k as real - y <= 0.5
    ensures var m := (k + TEN_11 / 2) / TEN_11;
      Abs(m as real * 100_000_000_000.0 - y) <= 50_000_000_000.0 <==> !(k % TEN_11 == TEN_11 / 2 && k as real > y)
  {
    var m := (k + TEN_11 / 2) / TEN_11;
    var d := m * TEN_11 - k;
    assert -(TEN_11 / 2) < d <= TEN_11 / 2;
    assert k % TEN_11 == TEN_11 / 2 <==> d == TEN_11 / 2;
    assert m as real * 100_000_000_000.0 == d as real + k as real;
  }

  lemma TwiceRounded(x: real)
    requires x >= 0.0
    ensures Abs(ToFixed(ToFixed(x, E20), E9) - x) <= Over(0.5, E9) <==> !RoundsUpTwice(x)
  {
    var k := RoundHalfUp(Times(x, E20));
    RoundMonotone(0.0, Times(x, E20));
    RoundError(Times(x, E20));
    NinthOf(k);
    InTwentieths((k + TEN_11 / 2) / TEN_11, x);
    NearTie(k, Times(x, E20));
  }

  /** Rounding to nine decimals a quotient that was rounded to twenty is half a unit off at
      most, if and only if the first rounding did not create a tie from below. */
  lemma TwiceRoundedIff(x: real)
    ensures Abs(ToFixed(ToFixed(x, E20), E9) - x) <= Over(0.5, E9) <==> !RoundsUpTwice(x)
  {
    if x >= 0.0 {
      TwiceRounded(x);
    } else {
      TwiceRounded(-x);
      ToFixedOdd(x, E20);
      ToFixedOdd(ToFixed(x, E20), E9);
    }
  }

  lemma ToFixedOdd(x: real, unit: real)
    requires unit > 0.0
    ensures ToFixed(-x, unit) == -ToFixed(x, unit)
  {
    assert Times(-x, unit) == -Times(x, unit);
    assert RoundHalfUp(Times(-x, unit)) == -RoundHalfUp(Times(x, unit));
  }
}
