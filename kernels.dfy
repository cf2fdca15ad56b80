/** The fixed kernels of imageProcessing.js: a 5x5 Gaussian blur and the two
    3x3 Sobel derivative kernels, each a one-channel square Array2D. */
module Kernels {
  import opened Grid
  import opened Convolution

  /** The 5x5 Gaussian blur: integer weights over 273, written row by row. */
  const GaussianBlur5Weights: seq<real> :=
    [1.0 / 273.0, 4.0 / 273.0, 7.0 / 273.0, 4.0 / 273.0, 1.0 / 273.0] +
    [4.0 / 273.0, 16.0 / 273.0, 26.0 / 273.0, 16.0 / 273.0, 4.0 / 273.0] +
    [7.0 / 273.0, 26.0 / 273.0, 41.0 / 273.0, 26.0 / 273.0, 7.0 / 273.0] +
    [4.0 / 273.0, 16.0 / 273.0, 26.0 / 273.0, 16.0 / 273.0, 4.0 / 273.0] +
    [1.0 / 273.0, 4.0 / 273.0, 7.0 / 273.0, 4.0 / 273.0, 1.0 / 273.0]

  const SobelXWeights: seq<real> := [
    -1.0, 0.0, 1.0,
    -2.0, 0.0, 2.0,
    -1.0, 0.0, 1.0
  ]

  const SobelYWeights: seq<real> := [
    1.0, 2.0, 1.0,
    0.0, 0.0, 0.0,
    -1.0, -2.0, -1.0
  ]

  /** A one-channel square kernel grid holding the given weights. */
  method KernelGrid(weights: seq<real>, n: nat) returns (f: Array2D)
    requires |weights| == n * n
    ensures fresh(f) && fresh(f.data) && f.Valid()
    ensures f.width == n && f.height == n && f.channels == 1 && f.data[..] == weights
  {
    var data := new real[|weights|](m requires 0 <= m < |weights| => weights[m]);
    f := new Array2D(data, n, n);
  }

  method GaussianBlur5() returns (f: Array2D)
    ensures fresh(f) && fresh(f.data) && f.Valid()
    ensures f.width == 5 && f.height == 5 && f.channels == 1 && f.data[..] == GaussianBlur5Weights
  {
    f := KernelGrid(GaussianBlur5Weights, 5);
  }

  method SobelX() returns (f: Array2D)
    ensures fresh(f) && fresh(f.data) && f.Valid()
    ensures f.width == 3 && f.height == 3 && f.channels == 1 && f.data[..] == SobelXWeights
  {
    f := KernelGrid(SobelXWeights, 3);
  }

  method SobelY() returns (f: Array2D)
    ensures fresh(f) && fresh(f.data) && f.Valid()
    ensures f.width == 3 && f.height == 3 && f.channels == 1 && f.data[..] == SobelYWeights
  {
    f := KernelGrid(SobelYWeights, 3);
  }

  /** Entry (r, c) of the Gaussian kernel, in the kernel's own row-major order. */
  function GaussianAt(r: int, c: int): real
    requires 0 <= r < 5 && 0 <= c < 5
  {
    GaussianBlur5Weights[5 * r + c]
  }

  /** Entry (r, c) of a 3x3 kernel, in the kernel's own row-major order. */
  function At3(k: seq<real>, r: int, c: int): real
    requires |k| == 9 && 0 <= r < 3 && 0 <= c < 3
  {
    k[3 * r + c]
  }

  /** The Gaussian kernel equals its transpose. */
  lemma GaussianTransposed()
    ensures forall r, c :: 0 <= r < 5 && 0 <= c < 5 ==> GaussianAt(r, c) == GaussianAt(c, r)
  {
    forall r, c | 0 <= r < 5 && 0 <= c < 5
      ensures GaussianAt(r, c) == GaussianAt(c, r)
    {
      if r == 0 {
        if c == 0 {
        } else if c == 1 {
        } else if c == 2 {
        } else if c == 3 {
        } else {
        }
      } else if r == 1 {
        if c == 0 {
        } else if c == 1 {
        } else if c == 2 {
        } else if c == 3 {
        } else {
        }
      } else if r == 2 {
        if c == 0 {
        } else if c == 1 {
        } else if c == 2 {
        } else if c == 3 {
        } else {
        }
      } else if r == 3 {
        if c == 0 {
        } else if c == 1 {
        } else if c == 2 {
        } else if c == 3 {
        } else {
        }
      } else {
        if c == 0 {
        } else if c == 1 {
        } else if c == 2 {
        } else if c == 3 {
        } else {
        }
      }
    }
  }

  /** The Gaussian kernel is unchanged by turning it upside down. */
  lemma GaussianFlippedRows()
    ensures forall r, c :: 0 <= r < 5 && 0 <= c < 5 ==> GaussianAt(r, c) == GaussianAt(4 - r, c)
  {
    forall r, c | 0 <= r < 5 && 0 <= c < 5
      ensures GaussianAt(r, c) == GaussianAt(4 - r, c)
    {
      if r == 0 {
      } else if r == 1 {
      } else if r == 2 {
      } else if r == 3 {
      } else {
      }
    }
  }

  /** The Gaussian kernel is unchanged by mirroring it left to right. */
  lemma GaussianFlippedCols()
    ensures forall r, c :: 0 <= r < 5 && 0 <= c < 5 ==> GaussianAt(r, c) == GaussianAt(r, 4 - c)
  {
    forall r, c | 0 <= r < 5 && 0 <= c < 5
      ensures GaussianAt(r, c) == GaussianAt(r, 4 - c)
    {
      if r == 0 {
      } else if r == 1 {
      } else if r == 2 {
      } else if r == 3 {
      } else {
      }
    }
  }

  /** A 3x3 kernel row's (part) sum written out term by term, in loop order. */
  lemma ExpandCols3(k: seq<real>, p: Part, fr: int)
    requires |k| >= 9 && 0 <= fr < 3
    ensures WeightColsSum(k, 3, p, fr, 3) == Portion(Weight(k, 3, fr, 0), p) + Portion(Weight(k, 3, fr, 1), p) + Portion(Weight(k, 3, fr, 2), p)
  {
    assert WeightColsSum(k, 3, p, fr, 1) == Portion(Weight(k, 3, fr, 0), p);
  }

  /** A 5x5 kernel row's sum written out term by term, in loop order. */
  lemma ExpandCols5(k: seq<real>, fr: int)
    requires |k| >= 25 && 0 <= fr < 5
    ensures WeightColsSum(k, 5, Whole, fr, 5) == Weight(k, 5, fr, 0) + Weight(k, 5, fr, 1) + Weight(k, 5, fr, 2) + Weight(k, 5, fr, 3) + Weight(k, 5, fr, 4)
  {
    assert WeightColsSum(k, 5, Whole, fr, 1) == Weight(k, 5, fr, 0);
    assert WeightColsSum(k, 5, Whole, fr, 3) == WeightColsSum(k, 5, Whole, fr, 1) + Weight(k, 5, fr, 1) + Weight(k, 5, fr, 2);
  }

  /** A 3x3 kernel's sums written out row by row, in loop order. */
  lemma ExpandRows3(k: seq<real>, p: Part, v: real)
    requires |k| >= 9
    ensures KernelSum(k, 3, p) == WeightColsSum(k, 3, p, 0, 3) + WeightColsSum(k, 3, p, 1, 3) + WeightColsSum(k, 3, p, 2, 3)
    ensures ScaledRowsSum(k, 3, v, 3) == ScaledColsSum(k, 3, v, 0, 3) + ScaledColsSum(k, 3, v, 1, 3) + ScaledColsSum(k, 3, v, 2, 3)
  {
    assert WeightRowsSum(k, 3, p, 1) == WeightColsSum(k, 3, p, 0, 3);
    assert WeightRowsSum(k, 3, p, 2) == WeightRowsSum(k, 3, p, 1) + WeightColsSum(k, 3, p, 1, 3);
    assert ScaledRowsSum(k, 3, v, 1) == ScaledColsSum(k, 3, v, 0, 3);
    assert ScaledRowsSum(k, 3, v, 2) == ScaledRowsSum(k, 3, v, 1) + ScaledColsSum(k, 3, v, 1, 3);
  }

  /** A 5x5 kernel's sums written out row by row, in loop order. */
  lemma ExpandRows5(k: seq<real>, v: real)
    requires |k| >= 25
    ensures KernelSum(k, 5, Whole) == WeightColsSum(k, 5, Whole, 0, 5) + WeightColsSum(k, 5, Whole, 1, 5)
      + WeightColsSum(k, 5, Whole, 2, 5) + WeightColsSum(k, 5, Whole, 3, 5) + WeightColsSum(k, 5, Whole, 4, 5)
    ensures ScaledRowsSum(k, 5, v, 5) == ScaledColsSum(k, 5, v, 0, 5) + ScaledColsSum(k, 5, v, 1, 5)
      + ScaledColsSum(k, 5, v, 2, 5) + ScaledColsSum(k, 5, v, 3, 5) + ScaledColsSum(k, 5, v, 4, 5)
  {
    assert WeightRowsSum(k, 5, Whole, 1) == WeightColsSum(k, 5, Whole, 0, 5);
    assert WeightRowsSum(k, 5, Whole, 2) == WeightRowsSum(k, 5, Whole, 1) + WeightColsSum(k, 5, Whole, 1, 5);
    assert WeightRowsSum(k, 5, Whole, 3) == WeightRowsSum(k, 5, Whole, 2) + WeightColsSum(k, 5, Whole, 2, 5);
    assert WeightRowsSum(k, 5, Whole, 4) == WeightRowsSum(k, 5, Whole, 3) + WeightColsSum(k, 5, Whole, 3, 5);
    assert ScaledRowsSum(k, 5, v, 1) == ScaledColsSum(k, 5, v, 0, 5);
    assert ScaledRowsSum(k, 5, v, 2) == ScaledRowsSum(k, 5, v, 1) + ScaledColsSum(k, 5, v, 1, 5);
    assert ScaledRowsSum(k, 5, v, 3) == ScaledRowsSum(k, 5, v, 2) + ScaledColsSum(k, 5, v, 2, 5);
    assert ScaledRowsSum(k, 5, v, 4) == ScaledRowsSum(k, 5, v, 3) + ScaledColsSum(k, 5, v, 3, 5);
  }

  /** Row sums of the Gaussian kernel as the loop meets them: 17, 66, 107, 66, 17 (over 273). */
  lemma GaussianRowSums()
    ensures WeightColsSum(GaussianBlur5Weights, 5, Whole, 0, 5) == 17.0 / 273.0
    ensures WeightColsSum(GaussianBlur5Weights, 5, Whole, 1, 5) == 66.0 / 273.0
    ensures WeightColsSum(GaussianBlur5Weights, 5, Whole, 2, 5) == 107.0 / 273.0
    ensures WeightColsSum(GaussianBlur5Weights, 5, Whole, 3, 5) == 66.0 / 273.0
    ensures WeightColsSum(GaussianBlur5Weights, 5, Whole, 4, 5) == 17.0 / 273.0
  {
    ExpandCols5(GaussianBlur5Weights, 0);
    ExpandCols5(GaussianBlur5Weights, 1);
    ExpandCols5(GaussianBlur5Weights, 2);
    ExpandCols5(GaussianBlur5Weights, 3);
    ExpandCols5(GaussianBlur5Weights, 4);
  }

  /** The Gaussian weights add up to one: their numerators add up to 273. */
  lemma GaussianSum()
    ensures KernelSum(GaussianBlur5Weights, 5, Whole) == 1.0
  {
    ExpandRows5(GaussianBlur5Weights, 0.0);
    GaussianRowSums();
  }

  /** Row sums of the Sobel kernels as the loop meets them (the kernel turned by 180 degrees). */
  lemma SobelRowSums(p: Part)
    ensures WeightColsSum(SobelXWeights, 3, p, 0, 3) == WeightColsSum(SobelXWeights, 3, p, 2, 3)
    ensures WeightColsSum(SobelXWeights, 3, p, 0, 3) == (match p case Whole => 0.0 case PositivePart => 1.0 case NegativePart => -1.0)
    ensures WeightColsSum(SobelXWeights, 3, p, 1, 3) == (match p case Whole => 0.0 case PositivePart => 2.0 case NegativePart => -2.0)
    ensures WeightColsSum(SobelYWeights, 3, p, 0, 3) == (match p case Whole => -4.0 case PositivePart => 0.0 case NegativePart => -4.0)
    ensures WeightColsSum(SobelYWeights, 3, p, 1, 3) == 0.0
    ensures WeightColsSum(SobelYWeights, 3, p, 2, 3) == (match p case Whole => 4.0 case PositivePart => 4.0 case NegativePart => 0.0)
  {
    ExpandCols3(SobelXWeights, p, 0);
    ExpandCols3(SobelXWeights, p, 1);
    ExpandCols3(SobelXWeights, p, 2);
    ExpandCols3(SobelYWeights, p, 0);
    ExpandCols3(SobelYWeights, p, 1);
    ExpandCols3(SobelYWeights, p, 2);
  }

  /** Each Sobel kernel's weights add up to zero, with +4 positive and -4 negative weight. */
  lemma SobelSums()
    ensures KernelSum(SobelXWeights, 3, Whole) == 0.0 && KernelSum(SobelYWeights, 3, Whole) == 0.0
    ensures KernelSum(SobelXWeights, 3, PositivePart) == 4.0 && KernelSum(SobelXWeights, 3, NegativePart) == -4.0
    ensures KernelSum(SobelYWeights, 3, PositivePart) == 4.0 && KernelSum(SobelYWeights, 3, NegativePart) == -4.0
  {
    SobelRowSums(Whole);
    SobelRowSums(PositivePart);
    SobelRowSums(NegativePart);
    ExpandRows3(SobelXWeights, Whole, 0.0);
    ExpandRows3(SobelXWeights, PositivePart, 0.0);
    ExpandRows3(SobelXWeights, NegativePart, 0.0);
    ExpandRows3(SobelYWeights, Whole, 0.0);
    ExpandRows3(SobelYWeights, PositivePart, 0.0);
    ExpandRows3(SobelYWeights, NegativePart, 0.0);
  }

  /** sobelY is sobelX transposed and negated. */
  lemma SobelTranspose()
    ensures forall r, c :: 0 <= r < 3 && 0 <= c < 3 ==> At3(SobelYWeights, r, c) == -At3(SobelXWeights, c, r)
  {
  }

  /** On a uniform neighbourhood, padding included, either Sobel kernel responds with 0:
      a flat image whose value is the padding value has no edges. */
  lemma SobelUniform(s: seq<real>, g: Shape, pad: real, i: int, j: int, chan: int, v: real)
    requires |s| == g.Size() && 0 <= chan < g.channels
    requires UniformAround(s, g, pad, 3, i, j, chan, v)
    ensures Response(s, g, pad, SobelXWeights, 3, i, j, chan) == 0.0
    ensures Response(s, g, pad, SobelYWeights, 3, i, j, chan) == 0.0
  {
    UniformResponse(s, g, pad, SobelXWeights, 3, i, j, chan, v);
    UniformResponse(s, g, pad, SobelYWeights, 3, i, j, chan, v);
    ExpandRows3(SobelXWeights, Whole, v);
    ExpandRows3(SobelYWeights, Whole, v);
    SobelRowSums(Whole);
    ScaledCols(SobelXWeights, 3, v, 0, 3);
    ScaledCols(SobelXWeights, 3, v, 1, 3);
    ScaledCols(SobelXWeights, 3, v, 2, 3);
    ScaledCols(SobelYWeights, 3, v, 0, 3);
    ScaledCols(SobelYWeights, 3, v, 1, 3);
    ScaledCols(SobelYWeights, 3, v, 2, 3);
  }

  /** With samples and padding in [0, 255], a Sobel response lies in [-1020, 1020]. */
  lemma SobelBounds(s: seq<real>, g: Shape, pad: real, i: int, j: int, chan: int)
    requires |s| == g.Size() && 0 <= chan < g.channels
    requires LevelsAround(s, g, pad, 3, i, j, chan)
    ensures -1020.0 <= Response(s, g, pad, SobelXWeights, 3, i, j, chan) <= 1020.0
    ensures -1020.0 <= Response(s, g, pad, SobelYWeights, 3, i, j, chan) <= 1020.0
  {
    ResponseBounds(s, g, pad, SobelXWeights, 3, i, j, chan);
    ResponseBounds(s, g, pad, SobelYWeights, 3, i, j, chan);
    SobelSums();
  }

  /** On a uniform neighbourhood, padding included, the Gaussian blur returns the common value. */
  lemma GaussianUniform(s: seq<real>, g: Shape, pad: real, i: int, j: int, chan: int, v: real)
    requires |s| == g.Size() && 0 <= chan < g.channels
    requires UniformAround(s, g, pad, 5, i, j, chan, v)
    ensures Response(s, g, pad, GaussianBlur5Weights, 5, i, j, chan) == v
  {
    UniformResponse(s, g, pad, GaussianBlur5Weights, 5, i, j, chan, v);
    ExpandRows5(GaussianBlur5Weights, v);
    GaussianRowSums();
    ScaledCols(GaussianBlur5Weights, 5, v, 0, 5);
    ScaledCols(GaussianBlur5Weights, 5, v, 1, 5);
    ScaledCols(GaussianBlur5Weights, 5, v, 2, 5);
    ScaledCols(GaussianBlur5Weights, 5, v, 3, 5);
    ScaledCols(GaussianBlur5Weights, 5, v, 4, 5);
  }
}
