/**
 * Decimal rounding helpers of lib/format-number.ts, on exact reals.
 * Each one scales by factor = 10^digits, applies Math.floor, Math.ceil or
 * Math.round, and divides by the factor again.
 */
module FormatNumber {

  /** 10^d, the `factor` of each helper. */
  function Pow10(d: nat): (r: real)
    ensures r >= 1.0
  {
    if d == 0 then 1.0 else 10.0 * Pow10(d - 1)
  }

  /** The width of one step of the 10^-d grid. */
  function Step(d: nat): (r: real)
    ensures 0.0 < r <= 1.0
  {
    DivLe(1.0, Pow10(d), Pow10(d));
    1.0 / Pow10(d)
  }

  /** `v` is a whole multiple of 1/factor. */
  predicate OnGridOf(v: real, factor: real)
  {
    (v * factor).Floor as real == v * factor
  }

  /** `v` lies on the 10^-digits grid. */
  predicate OnGrid(v: real, digits: nat)
  {
    OnGridOf(v, Pow10(digits))
  }

  lemma DivLe(a: real, b: real, f: real)
    requires f > 0.0 && a <= b
    ensures a / f <= b / f
  {
    assert (b - a) / f >= 0.0;
    assert (b - a) / f == b / f - a / f;
  }

  lemma DivLt(a: real, b: real, f: real)
    requires f > 0.0 && a < b
    ensures a / f < b / f
  {
    assert (b - a) / f > 0.0;
    assert (b - a) / f == b / f - a / f;
  }

  lemma WholeOverFactorOnGrid(k: int, f: real)
    requires f > 0.0
    ensures OnGridOf(k as real / f, f)
  {
    assert (k as real / f) * f == k as real;
    assert (k as real).Floor == k;
  }

  /** Math.floor(value * factor) / factor. */
  function FloorTo(value: real, factor: real): (r: real)
    requires factor > 0.0
    ensures r <= value < r + 1.0 / factor
    ensures OnGridOf(r, factor)
  {
    var k := (value * factor).Floor;
    DivLe(k as real, value * factor, factor);
    DivLt(value * factor, k as real + 1.0, factor);
    WholeOverFactorOnGrid(k, factor);
    k as real / factor
  }

  /** Math.ceil(value * factor) / factor. */
  function CeilTo(value: real, factor: real): (r: real)
    requires factor > 0.0
    ensures value <= r < value + 1.0 / factor
    ensures OnGridOf(r, factor)
  {
    var k := -((-(value * factor)).Floor);
    DivLe(value * factor, k as real, factor);
    DivLt(k as real - 1.0, value * factor, factor);
    WholeOverFactorOnGrid(k, factor);
    k as real / factor
  }

  /** Math.round(value * factor) / factor, where Math.round(x) is floor(x + 1/2). */
  function RoundTo(value: real, factor: real): (r: real)
    requires factor > 0.0
    ensures value - 0.5 / factor < r <= value + 0.5 / factor
    ensures OnGridOf(r, factor)
  {
    var k := (value * factor + 0.5).Floor;
    DivLe(k as real, value * factor + 0.5, factor);
    DivLt(value * factor - 0.5, k as real, factor);
    WholeOverFactorOnGrid(k, factor);
    k as real / factor
  }

  /** floorNumber(value, digits): the largest grid value not above `value`. */
  function FloorNumber(value: real, digits: nat := 2): (r: real)
    ensures r <= value < r + Step(digits)
    ensures OnGrid(r, digits)
  {
    FloorTo(value, Pow10(digits))
  }

  /** ceilNumber(value, digits): the smallest grid value not below `value`. */
  function CeilNumber(value: real, digits: nat := 2): (r: real)
    ensures value <= r < value + Step(digits)
    ensures OnGrid(r, digits)
  {
    CeilTo(value, Pow10(digits))
  }

  /** roundNumber(value, digits): the nearest grid value, halves rounded up. */
  function RoundNumber(value: real, digits: nat := 2): (r: real)
    ensures value - Step(digits) / 2.0 < r <= value + Step(digits) / 2.0
    ensures OnGrid(r, digits)
  {
    assert 0.5 / Pow10(digits) == Step(digits) / 2.0;
    RoundTo(value, Pow10(digits))
  }

  /** Flooring never takes a non-negative value below zero. */
  lemma FloorNonNegative(value: real, digits: nat)
    requires value >= 0.0
    ensures FloorNumber(value, digits) >= 0.0
  {
    var f := Pow10(digits);
    assert FloorNumber(value, digits) == FloorTo(value, f);
    assert value * f >= 0.0;
    var k := (value * f).Floor;
    assert k >= 0;
    assert FloorTo(value, f) == k as real / f;
  }

  lemma RoundToBetween(value: real, f: real)
    requires f > 0.0
    ensures FloorTo(value, f) <= RoundTo(value, f) <= CeilTo(value, f)
  {
    var x := value * f;
    var lo, k, hi := x.Floor, (x + 0.5).Floor, -((-x).Floor);
    assert lo <= k <= hi;
    DivLe(lo as real, k as real, f);
    DivLe(k as real, hi as real, f);
  }

  /** Rounding to nearest lies between floor and ceil. */
  lemma RoundBetweenFloorAndCeil(value: real, digits: nat)
    ensures FloorNumber(value, digits) <= RoundNumber(value, digits) <= CeilNumber(value, digits)
  {
    RoundToBetween(value, Pow10(digits));
  }

  lemma GridValuesAreFixedTo(value: real, f: real)
    requires f > 0.0 && OnGridOf(value, f)
    ensures FloorTo(value, f) == value && CeilTo(value, f) == value && RoundTo(value, f) == value
  {
    var x := value * f;
    assert FloorTo(value, f) == x.Floor as real / f;
    assert CeilTo(value, f) == (-((-x).Floor)) as real / f;
    assert RoundTo(value, f) == (x + 0.5).Floor as real / f;
    var k := x.Floor;
    assert x == k as real;
    assert (-x).Floor == -k;
    assert (x + 0.5).Floor == k;
    assert (value * f) / f == value;
  }

  /** A value already on the grid is returned unchanged by all three. */
  lemma GridValuesAreFixed(value: real, digits: nat)
    requires OnGrid(value, digits)
    ensures FloorNumber(value, digits) == value
    ensures CeilNumber(value, digits) == value
    ensures RoundNumber(value, digits) == value
  {
    GridValuesAreFixedTo(value, Pow10(digits));
  }

  /** Each rounding function is idempotent. */
  lemma RoundingIsIdempotent(value: real, digits: nat)
    ensures FloorNumber(FloorNumber(value, digits), digits) == FloorNumber(value, digits)
    ensures CeilNumber(CeilNumber(value, digits), digits) == CeilNumber(value, digits)
    ensures RoundNumber(RoundNumber(value, digits), digits) == RoundNumber(value, digits)
  {
    GridValuesAreFixed(FloorNumber(value, digits), digits);
    GridValuesAreFixed(CeilNumber(value, digits), digits);
    GridValuesAreFixed(RoundNumber(value, digits), digits);
  }

  /** The documented examples, with `digits` defaulting to 2. */
  lemma DocumentedExamples()
    ensures FloorNumber(1.234) == 1.23 && FloorNumber(1.234, 3) == 1.234 && FloorNumber(1.0, 2) == 1.0
    ensures FloorNumber(1.2347, 3) == 1.234
    ensures CeilNumber(1.234) == 1.24 && CeilNumber(1.234, 3) == 1.234 && CeilNumber(1.0, 2) == 1.0
    ensures CeilNumber(1.2342, 3) == 1.235
    ensures RoundNumber(1.234) == 1.23 && RoundNumber(1.235) == 1.24 && RoundNumber(1.2347, 3) == 1.235
  {
    assert Pow10(2) == 100.0 && Pow10(3) == 1000.0;
    assert (1.234 * 100.0).Floor == 123;
    assert (1.234 * 1000.0).Floor == 1234;
    assert (1.0 * 100.0).Floor == 100;
    assert (1.2347 * 1000.0).Floor == 1234;
    assert (-(1.234 * 100.0)).Floor == -124;
    assert (-(1.234 * 1000.0)).Floor == -1234;
    assert (-(1.0 * 100.0)).Floor == -100;
    assert (-(1.2342 * 1000.0)).Floor == -1235;
    assert (1.234 * 100.0 + 0.5).Floor == 123;
    assert (1.235 * 100.0 + 0.5).Floor == 124;
    assert (1.2347 * 1000.0 + 0.5).Floor == 1235;
  }
}
