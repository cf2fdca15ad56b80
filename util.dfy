/** Helpers of util.js: linear interpolation, vector magnitude and the test
    patterns the demos paint into a grid. Every pattern writes the same value
    into channels 0..2 of each pixel and leaves channel 3 alone. */
module Util {
  import opened Grid

  /** Linear interpolation from start (delta 0) to from (delta 1). */
  function Lerp(start: real, from: real, delta: real): (r: real)
    ensures delta == 0.0 ==> r == start
    ensures delta == 1.0 ==> r == from
  {
    (from - start) * delta + start
  }

  /** For delta in [0, 1] lerp stays between its two ends. */
  lemma LerpBetween(start: real, from: real, delta: real)
    requires 0.0 <= delta <= 1.0
    ensures start <= Lerp(start, from, delta) <= from || from <= Lerp(start, from, delta) <= start
  {
    var d := from - start;
    assert Lerp(start, from, delta) == d * delta + start;
    if d >= 0.0 {
      MulRight(0.0, delta, d);
      MulRight(delta, 1.0, d);
      assert 0.0 <= d * delta <= d;
    } else {
      MulRight(0.0, delta, -d);
      MulRight(delta, 1.0, -d);
      assert 0.0 <= delta * -d <= -d;
      assert d <= d * delta <= 0.0;
    }
  }

  lemma MulRight(a: real, b: real, t: real)
    requires a <= b && t >= 0.0
    ensures a * t <= b * t
  {
  }

  /** Lerp moves by (from - start) per unit of delta. */
  lemma LerpAffine(start: real, from: real, d1: real, d2: real)
    ensures Lerp(start, from, d1) - Lerp(start, from, d2) == (from - start) * (d1 - d2)
  {
  }

  /** Length of the vector (x, y); Math.sqrt is a parameter and Math.pow(v, 2) is v * v.
      Whatever sqrt is, it is only ever applied to a non-negative quantity, and to 0 for the
      zero vector. */
  function Mag2d(x: real, y: real, sqrt: real -> real): (m: real)
    ensures exists q :: q >= 0.0 && m == sqrt(q)
    ensures x == 0.0 && y == 0.0 ==> m == sqrt(0.0)
  {
    SquareNonNegative(x);
    SquareNonNegative(y);
    sqrt(x * x + y * y)
  }

  lemma SquareNonNegative(x: real)
    ensures x * x >= 0.0
  {
    if x < 0.0 {
      assert x * x == (-x) * (-x);
    }
  }

  /** The magnitude ignores the order and the signs of the components. */
  lemma Mag2dSymmetric(x: real, y: real, sqrt: real -> real)
    ensures Mag2d(x, y, sqrt) == Mag2d(y, x, sqrt)
    ensures Mag2d(-x, y, sqrt) == Mag2d(x, y, sqrt) && Mag2d(x, -y, sqrt) == Mag2d(x, y, sqrt)
  {
    assert (-x) * (-x) == x * x;
    assert (-y) * (-y) == y * y;
  }

  function Abs(n: int): nat {
    if n < 0 then -n else n
  }

  /** Math.max(Math.min(v, 255), 0). */
  function Clamp(v: int): (r: int)
    ensures 0 <= r <= 255
    ensures 0 <= v <= 255 ==> r == v
    ensures v > 255 ==> r == 255
    ensures v < 0 ==> r == 0
  {
    if v > 255 then 255 else if v < 0 then 0 else v
  }

  /** Value of the thin line pattern at distance index k from centre + offset:
      floor(d / 3 * 206) with d = |center - k + offset|, clamped to 0..255. */
  function LineProfile(center: int, k: int, offset: int): int {
    Clamp(((Abs(center - k + offset) as real) / 3.0 * 206.0).Floor)
  }

  /** The float formula is the integer formula 206 * d / 3 in disguise; the line is
      black on its centre and saturates at 255 from distance 4 on. */
  lemma LineProfileExact(center: int, k: int, offset: int)
    ensures LineProfile(center, k, offset) == Clamp(206 * Abs(center - k + offset) / 3)
    ensures 0 <= LineProfile(center, k, offset) <= 255
    ensures k == center + offset ==> LineProfile(center, k, offset) == 0
    ensures Abs(center - k + offset) >= 4 ==> LineProfile(center, k, offset) == 255
  {
    var d := Abs(center - k + offset);
    var q := 206 * d / 3;
    assert (d as real) / 3.0 * 206.0 == q as real + ((206 * d) % 3) as real / 3.0;
  }

  /** Value of the thick line pattern: 50 within distance 2 of centre + offset,
      otherwise floor(d / 2 * 80) clamped to 0..255. */
  function ThickProfile(center: int, k: int, offset: int): int {
    var d := Abs(center - k + offset);
    Clamp(if d < 2 then 50 else ((d as real) / 2.0 * 80.0).Floor)
  }

  /** The float formula is 40 * d; every value lies in 0..255. */
  lemma ThickProfileExact(center: int, k: int, offset: int)
    ensures Abs(center - k + offset) < 2 ==> ThickProfile(center, k, offset) == 50
    ensures Abs(center - k + offset) >= 2 ==> ThickProfile(center, k, offset) == Clamp(40 * Abs(center - k + offset))
    ensures 0 <= ThickProfile(center, k, offset) <= 255
  {
    var d := Abs(center - k + offset);
    assert (d as real) / 2.0 * 80.0 == (40 * d) as real;
  }

  /** Value of the diagonal pattern: min(|i - j| * 100, 255). */
  function DiagonalValue(i: int, j: int): int {
    var v := Abs(i - j) * 100;
    if v < 255 then v else 255
  }

  /** The diagonal pattern is black on the main diagonal, symmetric, and within 0..255. */
  lemma DiagonalProperties(i: int, j: int)
    ensures DiagonalValue(i, i) == 0
    ensures DiagonalValue(i, j) == DiagonalValue(j, i)
    ensures 0 <= DiagonalValue(i, j) <= 255
    ensures i != j <==> DiagonalValue(i, j) >= 100
  {
  }

  /** Value of the horizontal gradient: floor(j * 10) clamped to 0..255. */
  function GradientValue(j: int): int {
    Clamp(((j as real) * 10.0).Floor)
  }

  /** The gradient is 10 * j clamped, and never decreases from left to right. */
  lemma GradientProperties(j1: int, j2: int)
    ensures GradientValue(j1) == Clamp(10 * j1)
    ensures j1 <= j2 ==> GradientValue(j1) <= GradientValue(j2)
  {
    assert (j1 as real) * 10.0 == (10 * j1) as real;
    assert (j2 as real) * 10.0 == (10 * j2) as real;
  }

  /** The loop every pattern generator runs: channels 0..2 of pixel (i, j) get pattern(i, j),
      row by row, through setValue; channel 3 is not touched. */
  method Paint(source: Array2D, pattern: (int, int) -> real)
    requires source.Valid() && source.channels >= 3
    modifies source.data
    ensures forall r, c, ch :: source.Dims().InRange(r, c, ch) ==>
              source.data[source.Dims().Index(r, c, ch)] ==
                if ch < 3 then pattern(r, c) else old(source.data[source.Dims().Index(r, c, ch)])
  {
    var g := source.Dims();
    for i := 0 to source.height
      invariant forall r, c, ch :: g.InRange(r, c, ch) ==>
                  source.data[g.Index(r, c, ch)] ==
                    if ch < 3 && Before(r, c, i, 0) then pattern(r, c) else old(source.data[g.Index(r, c, ch)])
    {
      for j := 0 to source.width
        invariant forall r, c, ch :: g.InRange(r, c, ch) ==>
                    source.data[g.Index(r, c, ch)] ==
                      if ch < 3 && Before(r, c, i, j) then pattern(r, c) else old(source.data[g.Index(r, c, ch)])
      {
        var value := pattern(i, j);
        source.SetValue(value, i, j, 0);
        source.SetValue(value, i, j, 1);
        source.SetValue(value, i, j, 2);
      }
    }
  }

  method CreateClear(source: Array2D, color: real := 255.0)
    requires source.Valid() && source.channels >= 3
    modifies source.data
    ensures forall r, c, ch :: source.Dims().InRange(r, c, ch) ==>
              source.data[source.Dims().Index(r, c, ch)] == if ch < 3 then color else old(source.data[source.Dims().Index(r, c, ch)])
  {
    Paint(source, (i: int, j: int) => color);
  }

  /** A vertical line through column centerCol + offset. */
  method CreateVerticalLine(source: Array2D, offset: int := 0)
    requires source.Valid() && source.channels >= 3
    modifies source.data
    ensures forall r, c, ch :: source.Dims().InRange(r, c, ch) ==>
              source.data[source.Dims().Index(r, c, ch)] ==
                if ch < 3 then LineProfile(source.CenterCol(), c, offset) as real else old(source.data[source.Dims().Index(r, c, ch)])
  {
    var center := source.CenterCol();
    Paint(source, (i: int, j: int) => LineProfile(center, j, offset) as real);
  }

  /** A thick vertical line through column centerCol + offset. */
  method CreateVerticalLineThick(source: Array2D, offset: int := 0)
    requires source.Valid() && source.channels >= 3
    modifies source.data
    ensures forall r, c, ch :: source.Dims().InRange(r, c, ch) ==>
              source.data[source.Dims().Index(r, c, ch)] ==
                if ch < 3 then ThickProfile(source.CenterCol(), c, offset) as real else old(source.data[source.Dims().Index(r, c, ch)])
  {
    var center := source.CenterCol();
    Paint(source, (i: int, j: int) => ThickProfile(center, j, offset) as real);
  }

  /** A horizontal line through row centerRow + offset: the vertical line's profile along rows. */
  method CreateHorizontalLine(source: Array2D, offset: int := 0)
    requires source.Valid() && source.channels >= 3
    modifies source.data
    ensures forall r, c, ch :: source.Dims().InRange(r, c, ch) ==>
              source.data[source.Dims().Index(r, c, ch)] ==
                if ch < 3 then LineProfile(source.CenterRow(), r, offset) as real else old(source.data[source.Dims().Index(r, c, ch)])
  {
    var center := source.CenterRow();
    Paint(source, (i: int, j: int) => LineProfile(center, i, offset) as real);
  }

  /** A dark main diagonal brightening away from it. */
  method CreateDiagonalLine(source: Array2D)
    requires source.Valid() && source.channels >= 3
    modifies source.data
    ensures forall r, c, ch :: source.Dims().InRange(r, c, ch) ==>
              source.data[source.Dims().Index(r, c, ch)] ==
                if ch < 3 then DiagonalValue(r, c) as real else old(source.data[source.Dims().Index(r, c, ch)])
  {
    Paint(source, (i: int, j: int) => DiagonalValue(i, j) as real);
  }

  /** A ramp brightening from left to right, the same in every row. */
  method CreateLineGradient(source: Array2D)
    requires source.Valid() && source.channels >= 3
    modifies source.data
    ensures forall r, c, ch :: source.Dims().InRange(r, c, ch) ==>
              source.data[source.Dims().Index(r, c, ch)] ==
                if ch < 3 then GradientValue(c) as real else old(source.data[source.Dims().Index(r, c, ch)])
  {
    Paint(source, (i: int, j: int) => GradientValue(j) as real);
  }
}
