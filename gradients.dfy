/** Gradient magnitude and direction from the two Sobel responses
    (computeGradients in imageProcessing.js). Math.sqrt and Math.atan2 are
    parameters; the angle is folded into [0, pi]. */
module Gradients {
  import opened Grid
  import opened Util

  /** Math.PI. */
  const Pi: real := 3.141592653589793

  /** Folds an atan2 result into [0, pi]: negative angles gain 2 pi, then angles above pi lose pi.
      For atan2's range [-pi, pi] the folded angle lies in [0, pi] and differs from the
      input by a whole number of half turns; only pi itself (or -pi) folds to pi. */
  function FoldAngle(angle: real): (r: real)
    ensures -Pi <= angle <= Pi ==> 0.0 <= r <= Pi
    ensures -Pi <= angle <= Pi ==> r == angle || r == angle + Pi || r == angle + 2.0 * Pi
    ensures -Pi <= angle <= Pi ==> (r == Pi <==> angle == Pi || angle == -Pi)
    ensures 0.0 <= angle <= Pi ==> r == angle
  {
    var a := if angle < 0.0 then angle + 2.0 * Pi else angle;
    if a > Pi then a - Pi else a
  }

  /** The magnitude ComputeGradients writes at pixel (r, c), from channel 0 of both inputs. */
  ghost function MagField(xs: seq<real>, gx: Shape, ys: seq<real>, gy: Shape, sqrt: real -> real): (int, int) -> real
    requires |xs| == gx.Size() && |ys| == gy.Size()
  {
    (r: int, c: int) =>
      if gx.InRange(r, c, 0) && gy.InRange(r, c, 0) then Mag2d(xs[gx.Index(r, c, 0)], ys[gy.Index(r, c, 0)], sqrt) else 0.0
  }

  /** The folded angle ComputeGradients writes at pixel (r, c). */
  ghost function AngleField(xs: seq<real>, gx: Shape, ys: seq<real>, gy: Shape, atan2: (real, real) -> real): (int, int) -> real
    requires |xs| == gx.Size() && |ys| == gy.Size()
  {
    (r: int, c: int) =>
      if gx.InRange(r, c, 0) && gy.InRange(r, c, 0) then FoldAngle(atan2(ys[gy.Index(r, c, 0)], xs[gx.Index(r, c, 0)])) else 0.0
  }

  /** Two fresh four-channel grids the size of sourceX: channels 0..2 of each pixel hold the
      magnitude (resp. folded angle) of (sourceX, sourceY) at that pixel, read from channel 0;
      channel 3 keeps the fill value 255. The source sizes both buffers 4 * width * width,
      so the grid must be square. */
  method ComputeGradients(sourceX: Array2D, sourceY: Array2D, sqrt: real -> real, atan2: (real, real) -> real)
    returns (mags: Array2D, angles: Array2D)
    requires sourceX.Valid() && sourceY.Valid() && sourceX.width == sourceX.height
    requires sourceY.width == sourceX.width && sourceY.height == sourceX.height
    ensures fresh(mags) && fresh(mags.data) && fresh(angles) && fresh(angles.data) && mags.data != angles.data
    ensures mags.Valid() && mags.Dims() == Shape(sourceX.width, sourceX.height, 4)
    ensures angles.Valid() && angles.Dims() == Shape(sourceX.width, sourceX.height, 4)
    ensures forall r, c, ch :: mags.Dims().InRange(r, c, ch) ==>
              mags.data[mags.Dims().Index(r, c, ch)] ==
                if ch < 3 then Mag2d(sourceX.GetValue(r, c), sourceY.GetValue(r, c), sqrt) else 255.0
    ensures forall r, c, ch :: angles.Dims().InRange(r, c, ch) ==>
              angles.data[angles.Dims().Index(r, c, ch)] ==
                if ch < 3 then FoldAngle(atan2(sourceY.GetValue(r, c), sourceX.GetValue(r, c))) else 255.0
  {
    var len := 4 * sourceX.width * sourceX.width;
    var magData := new real[len](_ => 255.0);
    var angleData := new real[len](_ => 255.0);
    mags := new Array2D(magData, sourceX.width, sourceX.height, 4);
    angles := new Array2D(angleData, sourceX.width, sourceX.height, 4);
    ghost var g := mags.Dims();
    ghost var fill := magData[..];
    assert angleData[..] == fill;
    for i := 0 to sourceX.height
      invariant RgbFilled(g, mags.data[..], fill, MagField(sourceX.data[..], sourceX.Dims(), sourceY.data[..], sourceY.Dims(), sqrt), 0, i, 0)
      invariant RgbFilled(g, angles.data[..], fill, AngleField(sourceX.data[..], sourceX.Dims(), sourceY.data[..], sourceY.Dims(), atan2), 0, i, 0)
      modifies mags.data, angles.data
    {
      GradientsRow(sourceX, sourceY, sqrt, atan2, mags, angles, i, fill);
    }
  }

  /** Row i of computeGradients' loop. */
  method GradientsRow(sourceX: Array2D, sourceY: Array2D, sqrt: real -> real, atan2: (real, real) -> real,
                      mags: Array2D, angles: Array2D, i: int, ghost fill: seq<real>)
    requires sourceX.Valid() && sourceY.Valid()
    requires sourceY.width == sourceX.width && sourceY.height == sourceX.height && 0 <= i < sourceX.height
    requires mags.Valid() && mags.Dims() == Shape(sourceX.width, sourceX.height, 4)
    requires angles.Valid() && angles.Dims() == mags.Dims()
    requires mags.data != angles.data
    requires mags.data != sourceX.data && mags.data != sourceY.data && angles.data != sourceX.data && angles.data != sourceY.data
    requires RgbFilled(mags.Dims(), mags.data[..], fill, MagField(sourceX.data[..], sourceX.Dims(), sourceY.data[..], sourceY.Dims(), sqrt), 0, i, 0)
    requires RgbFilled(mags.Dims(), angles.data[..], fill, AngleField(sourceX.data[..], sourceX.Dims(), sourceY.data[..], sourceY.Dims(), atan2), 0, i, 0)
    modifies mags.data, angles.data
    ensures RgbFilled(mags.Dims(), mags.data[..], fill, MagField(sourceX.data[..], sourceX.Dims(), sourceY.data[..], sourceY.Dims(), sqrt), 0, i + 1, 0)
    ensures RgbFilled(mags.Dims(), angles.data[..], fill, AngleField(sourceX.data[..], sourceX.Dims(), sourceY.data[..], sourceY.Dims(), atan2), 0, i + 1, 0)
  {
    ghost var g := mags.Dims();
    ghost var magOf := MagField(sourceX.data[..], sourceX.Dims(), sourceY.data[..], sourceY.Dims(), sqrt);
    ghost var angleOf := AngleField(sourceX.data[..], sourceX.Dims(), sourceY.data[..], sourceY.Dims(), atan2);
    for j := 0 to sourceX.width
      invariant RgbFilled(g, mags.data[..], fill, magOf, 0, i, j)
      invariant RgbFilled(g, angles.data[..], fill, angleOf, 0, i, j)
    {
      var xVal := sourceX.GetValue(i, j);
      var yVal := sourceY.GetValue(i, j);
      var mag := Mag2d(xVal, yVal, sqrt);
      var angle := atan2(yVal, xVal);
      if angle < 0.0 {
        angle := angle + 2.0 * Pi;
      }
      if angle > Pi {
        angle := angle - Pi;
      }
      RgbFilledPixel(g, mags.data[..], fill, magOf, 0, i, j, mag);
      RgbFilledPixel(g, angles.data[..], fill, angleOf, 0, i, j, angle);
      SetRgb(mags, mag, i, j);
      SetRgb(angles, angle, i, j);
    }
    RgbFilledRow(g, mags.data[..], fill, magOf, 0, i, sourceX.width);
    RgbFilledRow(g, angles.data[..], fill, angleOf, 0, i, sourceX.width);
  }
}
