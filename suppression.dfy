/** Non-maximum suppression (nonMaxSuppress in imageProcessing.js): an interior pixel
    keeps its gradient magnitude only if neither neighbour along the gradient direction
    is larger; otherwise it becomes 0. */
module Suppression {
  import opened Grid
  import opened Gradients

  /** The four directions the angle of a gradient is rounded to. */
  datatype Direction = Horizontal | Rising | Vertical | Falling

  /** The angle bins of nonMaxSuppress, in the order the source tests them; every angle
      outside [0, 7 pi / 8) falls through to the horizontal case. */
  function Bin(angle: real): (d: Direction)
    ensures 0.0 <= angle <= Pi ==> LineDistance(angle, Centre(d)) <= Pi / 8.0
  {
    if 0.0 <= angle < Pi / 8.0 then Horizontal
    else if Pi / 8.0 <= angle < 3.0 * Pi / 8.0 then Rising
    else if 3.0 * Pi / 8.0 <= angle < 5.0 * Pi / 8.0 then Vertical
    else if 5.0 * Pi / 8.0 <= angle < 7.0 * Pi / 8.0 then Falling
    else Horizontal
  }

  /** Row and column offset of the first neighbour compared; the second neighbour is the
      opposite pixel. */
  function Offset(d: Direction): (o: (int, int))
    ensures -1 <= o.0 <= 1 && -1 <= o.1 <= 1 && o != (0, 0)
  {
    match d
    case Horizontal => (0, -1)
    case Rising => (-1, 1)
    case Vertical => (-1, 0)
    case Falling => (-1, -1)
  }

  /** The angle a direction stands for. */
  function Centre(d: Direction): real {
    match d
    case Horizontal => 0.0
    case Rising => Pi / 4.0
    case Vertical => Pi / 2.0
    case Falling => 3.0 * Pi / 4.0
  }

  function AbsReal(x: real): real {
    if x < 0.0 then -x else x
  }

  /** Distance between two angles of [0, pi] when directions a half turn apart are the same. */
  function LineDistance(a: real, b: real): real {
    var d := AbsReal(a - b);
    if d <= Pi - d then d else Pi - d
  }

  /** For every angle computeGradients can produce, the bin is the direction nearest to it. */
  lemma BinNearest(angle: real, d: Direction)
    requires 0.0 <= angle <= Pi
    ensures LineDistance(angle, Centre(Bin(angle))) <= LineDistance(angle, Centre(d))
    ensures 7.0 * Pi / 8.0 <= angle ==> Bin(angle) == Horizontal
  {
  }

  /** Math.max(a, b). */
  function Max(a: real, b: real): (m: real)
    ensures m >= a && m >= b && (m == a || m == b)
  {
    if a >= b then a else b
  }

  /** The suppression rule: 0 when the largest of (current, n1, n2) exceeds the current
      magnitude, the current magnitude otherwise. */
  function Suppress(current: real, n1: real, n2: real): (r: real)
    ensures n1 > current || n2 > current ==> r == 0.0
    ensures n1 <= current && n2 <= current ==> r == current
  {
    if Max(Max(current, n1), n2) > current then 0.0 else current
  }

  /** Magnitude at pixel (i, j) of m after suppression under the given angle. */
  function SuppressAt(m: seq<real>, g: Shape, angle: real, i: int, j: int): (r: real)
    requires |m| == g.Size() && g.channels >= 1 && InFrame(g, 1, i, j)
    ensures r == 0.0 || r == m[g.Index(i, j, 0)]
  {
    var (dr, dc) := Offset(Bin(angle));
    Suppress(m[g.Index(i, j, 0)], m[g.Index(i + dr, j + dc, 0)], m[g.Index(i - dr, j - dc, 0)])
  }

  /** res is the suppression of the magnitudes m under the angles in a (channel 0 of a grid
      of shape ga): channels 0..2 of the interior become SuppressAt; the border and
      channel 3 keep m. */
  ghost predicate Suppressed(m: seq<real>, g: Shape, a: seq<real>, ga: Shape, res: seq<real>)
    requires |m| == g.Size() && g.channels >= 1 && |a| == ga.Size() && ga.channels >= 1 && ga.width == g.width && ga.height == g.height
  {
    |res| == g.Size() &&
    forall r, c, ch :: g.InRange(r, c, ch) ==>
      res[g.Index(r, c, ch)] ==
        if ch < 3 && InFrame(g, 1, r, c) then SuppressAt(m, g, a[ga.Index(r, c, 0)], r, c) else m[g.Index(r, c, ch)]
  }

  /** A fresh four-channel copy of magGrid in which every interior pixel that has a larger
      neighbour along its gradient direction is set to 0 in channels 0..2. */
  method NonMaxSuppress(magGrid: Array2D, angleGrid: Array2D) returns (res: Array2D)
    requires magGrid.Valid() && magGrid.channels == 4
    requires angleGrid.Valid() && angleGrid.width == magGrid.width && angleGrid.height == magGrid.height
    ensures fresh(res) && fresh(res.data) && res.Valid() && res.Dims() == magGrid.Dims()
    ensures Suppressed(magGrid.data[..], magGrid.Dims(), angleGrid.data[..], angleGrid.Dims(), res.data[..])
  {
    var copy := new real[magGrid.data.Length];
    forall k | 0 <= k < copy.Length {
      copy[k] := magGrid.data[k];
    }
    res := new Array2D(copy, magGrid.width, magGrid.height, 4);
    ghost var g := res.Dims();
    ghost var base := magGrid.data[..];
    assert copy[..] == base;
    ghost var f := SuppressField(magGrid.data[..], angleGrid.data[..], angleGrid.Dims(), g);
    var i := 1;
    while i < magGrid.height - 1
      invariant 1 <= i
      invariant RgbFilled(g, res.data[..], base, f, 1, i, 1)
      decreases magGrid.height - i
    {
      SuppressRow(magGrid, angleGrid, res, i, base);
      i := i + 1;
    }
  }

  /** The value nonMaxSuppress writes at pixel (r, c). */
  ghost function SuppressField(m: seq<real>, a: seq<real>, ga: Shape, g: Shape): (int, int) -> real
    requires |m| == g.Size() && g.channels >= 1 && |a| == ga.Size() && ga.channels >= 1 && ga.width == g.width && ga.height == g.height
  {
    (r: int, c: int) =>
      if InFrame(g, 1, r, c) then SuppressAt(m, g, a[ga.Index(r, c, 0)], r, c) else 0.0
  }

  /** Row i of nonMaxSuppress's loop. */
  method SuppressRow(magGrid: Array2D, angleGrid: Array2D, res: Array2D, i: int, ghost base: seq<real>)
    requires magGrid.Valid() && magGrid.channels == 4
    requires angleGrid.Valid() && angleGrid.width == magGrid.width && angleGrid.height == magGrid.height
    requires res.Valid() && res.Dims() == magGrid.Dims() && res.data != magGrid.data && res.data != angleGrid.data
    requires 1 <= i < magGrid.height - 1
    requires RgbFilled(res.Dims(), res.data[..], base, SuppressField(magGrid.data[..], angleGrid.data[..], angleGrid.Dims(), res.Dims()), 1, i, 1)
    modifies res.data
    ensures RgbFilled(res.Dims(), res.data[..], base, SuppressField(magGrid.data[..], angleGrid.data[..], angleGrid.Dims(), res.Dims()), 1, i + 1, 1)
  {
    ghost var g := res.Dims();
    ghost var f := SuppressField(magGrid.data[..], angleGrid.data[..], angleGrid.Dims(), g);
    var j := 1;
    while j < magGrid.width - 1
      invariant 1 <= j
      invariant RgbFilled(g, res.data[..], base, f, 1, i, j)
      decreases magGrid.width - j
    {
      var value := SuppressPixel(magGrid, angleGrid, i, j);
      assert value == f(i, j);
      RgbFilledPixel(g, res.data[..], base, f, 1, i, j, value);
      SetRgb(res, value, i, j);
      j := j + 1;
    }
    RgbFilledRow(g, res.data[..], base, f, 1, i, j);
  }

  /** The value nonMaxSuppress computes for interior pixel (i, j). */
  method SuppressPixel(magGrid: Array2D, angleGrid: Array2D, i: int, j: int) returns (value: real)
    requires magGrid.Valid() && angleGrid.Valid() && angleGrid.width == magGrid.width && angleGrid.height == magGrid.height
    requires InFrame(magGrid.Dims(), 1, i, j)
    ensures value == SuppressAt(magGrid.data[..], magGrid.Dims(), angleGrid.GetValue(i, j), i, j)
  {
    var currMag := magGrid.GetValue(i, j);
    var angle := angleGrid.GetValue(i, j);
    var n1, n2 := Neighbours(magGrid, i, j, angle);
    value := if Max(Max(currMag, n1), n2) > currMag then 0.0 else currMag;
  }

  /** The two magnitudes nonMaxSuppress compares pixel (i, j) with: the neighbours along
      the direction the angle falls in. */
  method Neighbours(magGrid: Array2D, i: int, j: int, angle: real) returns (n1: real, n2: real)
    requires magGrid.Valid() && InFrame(magGrid.Dims(), 1, i, j)
    ensures n1 == magGrid.GetValue(i + Offset(Bin(angle)).0, j + Offset(Bin(angle)).1)
    ensures n2 == magGrid.GetValue(i - Offset(Bin(angle)).0, j - Offset(Bin(angle)).1)
  {
    if 0.0 <= angle < Pi / 8.0 {
      n1 := magGrid.GetValue(i, j - 1);
      n2 := magGrid.GetValue(i, j + 1);
    } else if Pi / 8.0 <= angle < 3.0 * Pi / 8.0 {
      n1 := magGrid.GetValue(i - 1, j + 1);
      n2 := magGrid.GetValue(i + 1, j - 1);
    } else if 3.0 * Pi / 8.0 <= angle < 5.0 * Pi / 8.0 {
      n1 := magGrid.GetValue(i - 1, j);
      n2 := magGrid.GetValue(i + 1, j);
    } else if 5.0 * Pi / 8.0 <= angle < 7.0 * Pi / 8.0 {
      n1 := magGrid.GetValue(i - 1, j - 1);
      n2 := magGrid.GetValue(i + 1, j + 1);
    } else {
      n1 := magGrid.GetValue(i, j - 1);
      n2 := magGrid.GetValue(i, j + 1);
    }
  }

  /** Suppression keeps a magnitude only where it is a ridge along the gradient: a kept
      nonzero value is at least both neighbours compared. */
  lemma KeptIsRidge(m: seq<real>, g: Shape, angle: real, i: int, j: int)
    requires |m| == g.Size() && g.channels >= 1 && InFrame(g, 1, i, j)
    requires SuppressAt(m, g, angle, i, j) != 0.0
    ensures SuppressAt(m, g, angle, i, j) == m[g.Index(i, j, 0)]
    ensures m[g.Index(i + Offset(Bin(angle)).0, j + Offset(Bin(angle)).1, 0)] <= m[g.Index(i, j, 0)]
    ensures m[g.Index(i - Offset(Bin(angle)).0, j - Offset(Bin(angle)).1, 0)] <= m[g.Index(i, j, 0)]
  {
  }

  /** On nonnegative magnitudes (computeGradients' square roots) suppression is idempotent:
      a second pass with the same angles leaves every interior pixel of the result as it is. */
  lemma SuppressIdempotent(m: seq<real>, g: Shape, a: seq<real>, ga: Shape, res: seq<real>, i: int, j: int)
    requires |m| == g.Size() && g.channels >= 1 && |a| == ga.Size() && ga.channels >= 1 && ga.width == g.width && ga.height == g.height
    requires forall k :: 0 <= k < |m| ==> m[k] >= 0.0
    requires Suppressed(m, g, a, ga, res) && InFrame(g, 1, i, j)
    ensures SuppressAt(res, g, a[ga.Index(i, j, 0)], i, j) == res[g.Index(i, j, 0)]
  {
    var angle := a[ga.Index(i, j, 0)];
    var (dr, dc) := Offset(Bin(angle));
    var cur := m[g.Index(i, j, 0)];
    var n1, n2 := m[g.Index(i + dr, j + dc, 0)], m[g.Index(i - dr, j - dc, 0)];
    var n1', n2' := res[g.Index(i + dr, j + dc, 0)], res[g.Index(i - dr, j - dc, 0)];
    assert g.InRange(i + dr, j + dc, 0) && g.InRange(i - dr, j - dc, 0);
    assert n1' == 0.0 || n1' == n1;
    assert n2' == 0.0 || n2' == n2;
    assert n1 >= 0.0 && n2 >= 0.0;
    if res[g.Index(i, j, 0)] != 0.0 {
      KeptIsRidge(m, g, angle, i, j);
    }
  }
}
