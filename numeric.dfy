/** Python's numeric conversions on `float` values, over the reals. */
module Numeric {
  import opened Text

  /** `int(x)` for a float: the integer part, truncated toward zero. */
  function Trunc(x: real): (r: int)
    ensures x >= 0.0 ==> r as real <= x < r as real + 1.0
    ensures x < 0.0 ==> r as real - 1.0 < x <= r as real
  {
    if x >= 0.0 then x.Floor else -((-x).Floor)
  }

  /** `x % m` for floats with a positive modulus: Python's result has the
      sign of the modulus, so it lies in [0, m). */
  function FloorMod(x: real, m: real): (r: real)
    requires m > 0.0
    ensures 0.0 <= r < m
    ensures IsWhole((x - r) / m)
  {
    FloorModBounds(x, m);
    x - m * (x / m).Floor as real
  }

  lemma ScaledFraction(m: real, t: real)
    requires m > 0.0 && 0.0 <= t < 1.0
    ensures 0.0 <= m * t < m
  {
  }

  lemma Distribute(m: real, q: real, k: real)
    ensures m * q - m * k == m * (q - k)
  {
  }

  lemma CancelFactor(m: real, k: real)
    requires m > 0.0
    ensures (m * k) / m == k
  {
  }

  lemma FloorModBounds(x: real, m: real)
    requires m > 0.0
    ensures var k := (x / m).Floor;
      var r := x - m * k as real;
      0.0 <= r < m && (x - r) / m == k as real
  {
    var k := (x / m).Floor;
    var q := x / m;
    var t := q - k as real;
    assert x == m * q;
    Distribute(m, q, k as real);
    ScaledFraction(m, t);
    CancelFactor(m, k as real);
    var r := x - m * k as real;
    assert r == m * t;
    assert 0.0 <= r < m;
    assert x - r == m * k as real;
  }

  lemma FractionBounds(a: real, m: real)
    requires m > 0.0 && -m < a < m
    ensures -1.0 < a / m < 1.0
  {
  }

  predicate IsWhole(x: real) {
    x == x.Floor as real
  }

  /** A value already in [0, m) is its own remainder. */
  lemma FloorModInRange(x: real, m: real)
    requires 0.0 <= x < m
    ensures FloorMod(x, m) == x
  {
    var r := FloorMod(x, m);
    var q := (x - r) / m;
    FractionBounds(x - r, m);
    assert q == 0.0;
  }

  /** The occupancy label `f"{int(ratio * 100)}%"`. */
  function PercentText(ratio: real): (r: string)
    ensures |r| >= 2 && r[|r| - 1] == '%'
    ensures ratio >= 0.0 ==> AllDigits(r[..|r| - 1])
  {
    IntToString(Trunc(ratio * 100.0)) + "%"
  }

  /** The label reads back as the whole number of percent, truncated
      toward zero. */
  lemma PercentTextValue(ratio: real)
    ensures var r := PercentText(ratio);
      var n := ParseInt(r[..|r| - 1]);
      && n.Some?
      && (ratio >= 0.0 ==> n.value as real <= ratio * 100.0 < n.value as real + 1.0)
      && (ratio < 0.0 ==> n.value as real - 1.0 < ratio * 100.0 <= n.value as real)
  {
    var k := Trunc(ratio * 100.0);
    var r := PercentText(ratio);
    assert r[..|r| - 1] == IntToString(k);
    ParseIntOfIntToString(k);
  }

  /** Empty and full: "0%" and "100%". */
  lemma PercentTextEnds()
    ensures PercentText(0.0) == "0%" && PercentText(1.0) == "100%"
  {
    assert Trunc(1.0 * 100.0) == 100;
    assert NatToString(100) == NatToString(10) + [DigitChar(0)];
  }
}
