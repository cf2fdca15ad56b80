/** True 2D convolution with constant padding (convolve and fillArray in
    imageProcessing.js). The kernel is a square grid read turned by 180
    degrees and anchored at its centre (floor(n/2), floor(n/2)). */
module Convolution {
  import opened Grid

  /** A source sample, or the padding value when (row, col) falls outside the grid. */
  function Sample(s: seq<real>, g: Shape, pad: real, row: int, col: int, chan: int): real
    requires |s| == g.Size() && 0 <= chan < g.channels
  {
    if 0 <= row < g.height && 0 <= col < g.width then s[g.Index(row, col, chan)] else pad
  }

  /** The weight an n-by-n kernel applies at loop position (fr, fc): its entry
      (n-1-fr, n-1-fc), that is, the kernel turned by 180 degrees. */
  function Weight(k: seq<real>, n: nat, fr: int, fc: int): real
    requires |k| >= n * n && 0 <= fr < n && 0 <= fc < n
  {
    k[Shape(n, n, 1).Index(n - 1 - fr, n - 1 - fc, 0)]
  }

  /** The sample kernel position (fr, fc) meets when computing output (i, j, chan):
      the kernel's centre sits on (i, j). */
  function Tap(s: seq<real>, g: Shape, pad: real, n: nat, i: int, j: int, chan: int, fr: int, fc: int): real
    requires |s| == g.Size() && 0 <= chan < g.channels
  {
    Sample(s, g, pad, i + fr - n / 2, j + fc - n / 2, chan)
  }

  /** What the loop adds for kernel position (fr, fc) when computing output (i, j, chan). */
  function Term(s: seq<real>, g: Shape, pad: real, k: seq<real>, n: nat, i: int, j: int, chan: int, fr: int, fc: int): real
    requires |s| == g.Size() && 0 <= chan < g.channels
    requires |k| >= n * n && 0 <= fr < n && 0 <= fc < n
  {
    Tap(s, g, pad, n, i, j, chan, fr, fc) * Weight(k, n, fr, fc)
  }

  /** The terms of kernel row fr over columns 0..cols-1, added in loop order. */
  function ColsSum(s: seq<real>, g: Shape, pad: real, k: seq<real>, n: nat, i: int, j: int, chan: int, fr: int, cols: nat): real
    requires |s| == g.Size() && 0 <= chan < g.channels
    requires |k| >= n * n && 0 <= fr < n && cols <= n
  {
    if cols == 0 then 0.0
    else ColsSum(s, g, pad, k, n, i, j, chan, fr, cols - 1) + Term(s, g, pad, k, n, i, j, chan, fr, cols - 1)
  }

  /** The terms of kernel rows 0..rows-1, added in loop order. */
  function RowsSum(s: seq<real>, g: Shape, pad: real, k: seq<real>, n: nat, i: int, j: int, chan: int, rows: nat): real
    requires |s| == g.Size() && 0 <= chan < g.channels
    requires |k| >= n * n && rows <= n
  {
    if rows == 0 then 0.0
    else RowsSum(s, g, pad, k, n, i, j, chan, rows - 1) + ColsSum(s, g, pad, k, n, i, j, chan, rows - 1, n)
  }


  /** Where convolve finds the weight for loop position (fr, fc). */
  lemma FilterEntry(k: seq<real>, n: nat, fr: int, fc: int)
    requires |k| >= n * n && 0 <= fr < n && 0 <= fc < n
    ensures 0 <= n * (n - fr - 1) + (n - fc - 1) < |k|
    ensures k[n * (n - fr - 1) + (n - fc - 1)] == Weight(k, n, fr, fc)
  {
    assert n * (n - fr - 1) + (n - fc - 1) == Shape(n, n, 1).Index(n - 1 - fr, n - 1 - fc, 0);
    assert Shape(n, n, 1).Size() == n * n;
  }


  /** The loop's running sum after adding the term for (fr, fc). */
  lemma Accumulate(base: real, acc: real, x: real, w: real, s: seq<real>, g: Shape, pad: real, k: seq<real>, n: nat, i: int, j: int, chan: int, fr: int, fc: int)
    requires |s| == g.Size() && 0 <= chan < g.channels
    requires |k| >= n * n && 0 <= fr < n && 0 <= fc < n
    requires acc == base + ColsSum(s, g, pad, k, n, i, j, chan, fr, fc)
    requires x == Tap(s, g, pad, n, i, j, chan, fr, fc) && w == Weight(k, n, fr, fc)
    ensures acc + x * w == base + ColsSum(s, g, pad, k, n, i, j, chan, fr, fc + 1)
  {
  }

  /** The convolution of source s with kernel k at output (i, j, chan). */
  function Response(s: seq<real>, g: Shape, pad: real, k: seq<real>, n: nat, i: int, j: int, chan: int): real
    requires |s| == g.Size() && 0 <= chan < g.channels && |k| >= n * n
  {
    RowsSum(s, g, pad, k, n, i, j, chan, n)
  }

  /** Which weights a kernel sum adds up: all of them, only the positive ones, or only the negative ones. */
  datatype Part = Whole | PositivePart | NegativePart

  function Portion(w: real, p: Part): real {
    match p
    case Whole => w
    case PositivePart => if w > 0.0 then w else 0.0
    case NegativePart => if w < 0.0 then w else 0.0
  }

  function WeightColsSum(k: seq<real>, n: nat, p: Part, fr: int, cols: nat): real
    requires |k| >= n * n && 0 <= fr < n && cols <= n
  {
    if cols == 0 then 0.0 else WeightColsSum(k, n, p, fr, cols - 1) + Portion(Weight(k, n, fr, cols - 1), p)
  }

  function WeightRowsSum(k: seq<real>, n: nat, p: Part, rows: nat): real
    requires |k| >= n * n && rows <= n
  {
    if rows == 0 then 0.0 else WeightRowsSum(k, n, p, rows - 1) + WeightColsSum(k, n, p, rows - 1, n)
  }

  /** Sum of the chosen part of the kernel's weights. */
  function KernelSum(k: seq<real>, n: nat, p: Part): real
    requires |k| >= n * n
  {
    WeightRowsSum(k, n, p, n)
  }

  /** Every sample the kernel meets around (i, j) in channel chan, padding included, equals v. */
  ghost predicate UniformAround(s: seq<real>, g: Shape, pad: real, n: nat, i: int, j: int, chan: int, v: real)
    requires |s| == g.Size() && 0 <= chan < g.channels
  {
    forall fr, fc :: 0 <= fr < n && 0 <= fc < n ==> Tap(s, g, pad, n, i, j, chan, fr, fc) == v
  }

  /** Every sample the kernel meets around (i, j) in channel chan, padding included, is a
      colour level in [0, 255]. */
  ghost predicate LevelsAround(s: seq<real>, g: Shape, pad: real, n: nat, i: int, j: int, chan: int)
    requires |s| == g.Size() && 0 <= chan < g.channels
  {
    forall fr, fc :: 0 <= fr < n && 0 <= fc < n ==> 0.0 <= Tap(s, g, pad, n, i, j, chan, fr, fc) <= 255.0
  }

  /** A term over a uniform neighbourhood is the value times the weight. */
  lemma TermUniform(s: seq<real>, g: Shape, pad: real, k: seq<real>, n: nat, i: int, j: int, chan: int, v: real, fr: int, fc: int)
    requires |s| == g.Size() && 0 <= chan < g.channels && |k| >= n * n && 0 <= fr < n && 0 <= fc < n
    requires UniformAround(s, g, pad, n, i, j, chan, v)
    ensures Term(s, g, pad, k, n, i, j, chan, fr, fc) == v * Weight(k, n, fr, fc)
  {
  }

  /** The kernel's weights of row fr over columns 0..cols-1, each scaled by v, added in loop order. */
  function ScaledColsSum(k: seq<real>, n: nat, v: real, fr: int, cols: nat): real
    requires |k| >= n * n && 0 <= fr < n && cols <= n
  {
    if cols == 0 then 0.0 else ScaledColsSum(k, n, v, fr, cols - 1) + v * Weight(k, n, fr, cols - 1)
  }

  function ScaledRowsSum(k: seq<real>, n: nat, v: real, rows: nat): real
    requires |k| >= n * n && rows <= n
  {
    if rows == 0 then 0.0 else ScaledRowsSum(k, n, v, rows - 1) + ScaledColsSum(k, n, v, rows - 1, n)
  }

  lemma ScaleZero(v: real, c: real)
    requires c == 0.0
    ensures v * c == 0.0
  {
  }

  /** Scaling distributes over one more addend of a running sum. */
  lemma ScaleStep(v: real, a: real, b: real, c: real)
    requires c == a + b
    ensures v * c == v * a + v * b
  {
  }

  /** Scaling a kernel row's weights by v scales their sum by v. */
  lemma {:induction false} ScaledCols(k: seq<real>, n: nat, v: real, fr: int, cols: nat)
    requires |k| >= n * n && 0 <= fr < n && cols <= n
    ensures ScaledColsSum(k, n, v, fr, cols) == v * WeightColsSum(k, n, Whole, fr, cols)
  {
    if cols > 0 {
      ScaledCols(k, n, v, fr, cols - 1);
      ScaleStep(v, WeightColsSum(k, n, Whole, fr, cols - 1), Weight(k, n, fr, cols - 1), WeightColsSum(k, n, Whole, fr, cols));
    } else {
      ScaleZero(v, WeightColsSum(k, n, Whole, fr, cols));
    }
  }

  lemma {:induction false} UniformCols(s: seq<real>, g: Shape, pad: real, k: seq<real>, n: nat, i: int, j: int, chan: int, v: real, fr: int, cols: nat)
    requires |s| == g.Size() && 0 <= chan < g.channels && |k| >= n * n && 0 <= fr < n && cols <= n
    requires UniformAround(s, g, pad, n, i, j, chan, v)
    ensures ColsSum(s, g, pad, k, n, i, j, chan, fr, cols) == ScaledColsSum(k, n, v, fr, cols)
  {
    if cols > 0 {
      UniformCols(s, g, pad, k, n, i, j, chan, v, fr, cols - 1);
      TermUniform(s, g, pad, k, n, i, j, chan, v, fr, cols - 1);
    }
  }

  lemma {:induction false} UniformRows(s: seq<real>, g: Shape, pad: real, k: seq<real>, n: nat, i: int, j: int, chan: int, v: real, rows: nat)
    requires |s| == g.Size() && 0 <= chan < g.channels && |k| >= n * n && rows <= n
    requires UniformAround(s, g, pad, n, i, j, chan, v)
    ensures RowsSum(s, g, pad, k, n, i, j, chan, rows) == ScaledRowsSum(k, n, v, rows)
  {
    if rows > 0 {
      UniformRows(s, g, pad, k, n, i, j, chan, v, rows - 1);
      UniformCols(s, g, pad, k, n, i, j, chan, v, rows - 1, n);
    }
  }

  /** On a uniform neighbourhood (padding included) the samples drop out: the response is the sum of the weights, each scaled by the common value. */
  lemma UniformResponse(s: seq<real>, g: Shape, pad: real, k: seq<real>, n: nat, i: int, j: int, chan: int, v: real)
    requires |s| == g.Size() && 0 <= chan < g.channels && |k| >= n * n
    requires UniformAround(s, g, pad, n, i, j, chan, v)
    ensures Response(s, g, pad, k, n, i, j, chan) == ScaledRowsSum(k, n, v, n)
  {
    UniformRows(s, g, pad, k, n, i, j, chan, v, n);
  }

  /** One product of a level in [0, 255] with a weight lies between 255 times the weight's negative and positive parts. */
  lemma ProductBound(x: real, w: real)
    requires 0.0 <= x <= 255.0
    ensures 255.0 * Portion(w, NegativePart) <= x * w <= 255.0 * Portion(w, PositivePart)
  {
    if w > 0.0 {
      assert x * w <= 255.0 * w;
    } else if w < 0.0 {
      assert 255.0 * w <= x * w;
    }
  }

  lemma TermBound(s: seq<real>, g: Shape, pad: real, k: seq<real>, n: nat, i: int, j: int, chan: int, fr: int, fc: int)
    requires |s| == g.Size() && 0 <= chan < g.channels && |k| >= n * n && 0 <= fr < n && 0 <= fc < n
    requires LevelsAround(s, g, pad, n, i, j, chan)
    ensures 255.0 * Portion(Weight(k, n, fr, fc), NegativePart) <= Term(s, g, pad, k, n, i, j, chan, fr, fc)
                                                               <= 255.0 * Portion(Weight(k, n, fr, fc), PositivePart)
  {
    ProductBound(Tap(s, g, pad, n, i, j, chan, fr, fc), Weight(k, n, fr, fc));
  }

  lemma {:induction false} BoundedCols(s: seq<real>, g: Shape, pad: real, k: seq<real>, n: nat, i: int, j: int, chan: int, fr: int, cols: nat)
    requires |s| == g.Size() && 0 <= chan < g.channels && |k| >= n * n && 0 <= fr < n && cols <= n
    requires LevelsAround(s, g, pad, n, i, j, chan)
    ensures 255.0 * WeightColsSum(k, n, NegativePart, fr, cols) <= ColsSum(s, g, pad, k, n, i, j, chan, fr, cols)
                                                             <= 255.0 * WeightColsSum(k, n, PositivePart, fr, cols)
  {
    if cols > 0 {
      BoundedCols(s, g, pad, k, n, i, j, chan, fr, cols - 1);
      TermBound(s, g, pad, k, n, i, j, chan, fr, cols - 1);
    }
  }

  lemma {:induction false} BoundedRows(s: seq<real>, g: Shape, pad: real, k: seq<real>, n: nat, i: int, j: int, chan: int, rows: nat)
    requires |s| == g.Size() && 0 <= chan < g.channels && |k| >= n * n && rows <= n
    requires LevelsAround(s, g, pad, n, i, j, chan)
    ensures 255.0 * WeightRowsSum(k, n, NegativePart, rows) <= RowsSum(s, g, pad, k, n, i, j, chan, rows)
                                                          <= 255.0 * WeightRowsSum(k, n, PositivePart, rows)
  {
    if rows > 0 {
      BoundedRows(s, g, pad, k, n, i, j, chan, rows - 1);
      BoundedCols(s, g, pad, k, n, i, j, chan, rows - 1, n);
    }
  }

  /** With samples and padding in [0, 255], the response lies between 255 times the sum of the
      negative weights and 255 times the sum of the positive weights. */
  lemma ResponseBounds(s: seq<real>, g: Shape, pad: real, k: seq<real>, n: nat, i: int, j: int, chan: int)
    requires |s| == g.Size() && 0 <= chan < g.channels && |k| >= n * n
    requires LevelsAround(s, g, pad, n, i, j, chan)
    ensures 255.0 * KernelSum(k, n, NegativePart) <= Response(s, g, pad, k, n, i, j, chan) <= 255.0 * KernelSum(k, n, PositivePart)
  {
    BoundedRows(s, g, pad, k, n, i, j, chan, n);
  }

  /** The 1-by-1 kernel [1] reproduces every sample, so convolving with it changes nothing. */
  lemma IdentityKernel(s: seq<real>, g: Shape, pad: real, i: int, j: int, chan: int)
    requires |s| == g.Size() && g.InRange(i, j, chan)
    ensures Response(s, g, pad, [1.0], 1, i, j, chan) == s[g.Index(i, j, chan)]
  {
    assert Weight([1.0], 1, 0, 0) == 1.0;
    assert Tap(s, g, pad, 1, i, j, chan, 0, 0) == s[g.Index(i, j, chan)];
    assert ColsSum(s, g, pad, [1.0], 1, i, j, chan, 0, 1) == Term(s, g, pad, [1.0], 1, i, j, chan, 0, 0);
    assert RowsSum(s, g, pad, [1.0], 1, i, j, chan, 1) == ColsSum(s, g, pad, [1.0], 1, i, j, chan, 0, 1);
  }

  /** Copies the first `length` entries of sourceData into targetData and nothing else. */
  method FillArray(targetData: array<real>, sourceData: array<real>, length: nat)
    requires length <= targetData.Length && length <= sourceData.Length
    modifies targetData
    ensures targetData[..length] == old(sourceData[..length])
    ensures targetData[length..] == old(targetData[length..])
  {
    for i := 0 to length
      invariant forall m :: 0 <= m < i ==> targetData[m] == old(sourceData[m])
      invariant forall m :: i <= m < targetData.Length ==> targetData[m] == old(targetData[m])
      invariant forall m :: i <= m < sourceData.Length ==> sourceData[m] == old(sourceData[m])
    {
      targetData[i] := sourceData[i];
    }
  }

  /** The weighted sum convolve accumulates for output (row i, column j, channel chan),
      reading the source grid and the filter as they are; out-of-grid samples read as defaultValue. */
  method ConvolveAt(source: Array2D, filter: Array2D, defaultValue: real, i: int, j: int, chan: int) returns (value: real)
    requires source.Valid() && 0 <= chan < source.channels
    requires filter.Valid() && filter.width == filter.height
    ensures filter.width * filter.width <= filter.data.Length
    ensures value == Response(source.data[..], source.Dims(), defaultValue, filter.data[..], filter.width, i, j, chan)
  {
    ghost var n := filter.width;
    assert n * n <= filter.data.Length by {
      MulMonotone(n * n, 1, filter.channels);
    }
    value := 0.0;
    for filterRow := 0 to filter.height
      modifies {}
      invariant value == RowsSum(source.data[..], source.Dims(), defaultValue, filter.data[..], n, i, j, chan, filterRow)
    {
      value := AccumulateRow(source, filter, defaultValue, i, j, chan, filterRow, value);
    }
  }

  /** The filterCol loop of convolve: adds the terms of kernel row filterRow to value. */
  method AccumulateRow(source: Array2D, filter: Array2D, defaultValue: real, i: int, j: int, chan: int, filterRow: int, value0: real)
      returns (value: real)
    requires source.Valid() && 0 <= chan < source.channels
    requires filter.Valid() && filter.width == filter.height && 0 <= filterRow < filter.height
    requires filter.width * filter.width <= filter.data.Length
    ensures value == value0 + ColsSum(source.data[..], source.Dims(), defaultValue, filter.data[..], filter.width, i, j, chan, filterRow, filter.width)
  {
    var g := source.Dims();
    var n := filter.width;
    ghost var s := source.data[..];
    ghost var k := filter.data[..];
    value := value0;
    for filterCol := 0 to filter.width
      modifies {}
      invariant value == value0 + ColsSum(s, g, defaultValue, k, n, i, j, chan, filterRow, filterCol)
    {
      var srcRow := i + filterRow - filter.CenterRow();
      var srcCol := j + filterCol - filter.CenterCol();
      FilterEntry(k, n, filterRow, filterCol);
      var filterValue := filter.data[filter.height * (filter.height - filterRow - 1) + (filter.width - filterCol - 1)];

      if srcRow >= 0 && srcRow < source.height && srcCol >= 0 && srcCol < source.width {
        Accumulate(value0, value, source.GetValue(srcRow, srcCol, chan), filterValue, s, g, defaultValue, k, n, i, j, chan, filterRow, filterCol);
        value := value + source.GetValue(srcRow, srcCol, chan) * filterValue;
      } else {
        Accumulate(value0, value, defaultValue, filterValue, s, g, defaultValue, k, n, i, j, chan, filterRow, filterCol);
        value := value + defaultValue * filterValue;
      }
    }
  }

  /** In (r, c, ch) the chan loop has already written when it is about to handle (i, j, chan). */
  predicate CellDone(r: int, c: int, ch: int, i: int, j: int, chan: int) {
    Before(r, c, i, j) || (r == i && c == j && ch < chan)
  }

  /** The output buffer b while convolve is about to handle (i, j, chan): colour samples
      already handled hold their expected value e, everything else still holds the source's s. */
  ghost predicate Progress(g: Shape, b: seq<real>, s: seq<real>, e: (int, int, int) -> real, i: int, j: int, chan: int) {
    |b| == g.Size() && |s| == g.Size() &&
    forall r, c, ch :: g.InRange(r, c, ch) ==>
      b[g.Index(r, c, ch)] == if ch < 3 && CellDone(r, c, ch, i, j, chan) then e(r, c, ch) else s[g.Index(r, c, ch)]
  }

  /** Writing the expected value of (i, j, chan) moves progress on by one channel. */
  lemma ProgressWrite(g: Shape, b: seq<real>, s: seq<real>, e: (int, int, int) -> real, i: int, j: int, chan: int)
    requires Progress(g, b, s, e, i, j, chan) && g.InRange(i, j, chan) && chan < 3
    ensures Progress(g, b[g.Index(i, j, chan) := e(i, j, chan)], s, e, i, j, chan + 1)
  {
    var b' := b[g.Index(i, j, chan) := e(i, j, chan)];
    forall r, c, ch | g.InRange(r, c, ch)
      ensures b'[g.Index(r, c, ch)] == if ch < 3 && CellDone(r, c, ch, i, j, chan + 1) then e(r, c, ch) else s[g.Index(r, c, ch)]
    {
      if g.Index(r, c, ch) == g.Index(i, j, chan) {
        IndexInjective(g, r, c, ch, i, j, chan);
      }
    }
  }



  /** Convolves channels 0..2 of every pixel with the filter; channel 3 and beyond keep
      their values. All samples are read from the grid as it was before the call. */
  method Convolve(source: Array2D, filter: Array2D, defaultValue: real := 255.0)
    requires source.Valid() && source.channels >= 3
    requires filter.Valid() && filter.width == filter.height
    modifies source.data
    ensures forall r, c, ch :: source.Dims().InRange(r, c, ch) ==>
              source.data[source.Dims().Index(r, c, ch)] ==
                if ch < 3 then Response(old(source.data[..]), source.Dims(), defaultValue, old(filter.data[..]), filter.width, r, c, ch)
                else old(source.data[source.Dims().Index(r, c, ch)])
  {
    var g := source.Dims();
    var n := filter.width;
    ghost var s := source.data[..];
    ghost var k := filter.data[..];
    assert |k| >= n * n by {
      MulMonotone(n * n, 1, filter.channels);
    }

    var buffer := new real[source.data.Length](m requires 0 <= m < source.data.Length reads source.data => source.data[m]);
    ghost var e := (r: int, c: int, ch: int) => if 0 <= ch < g.channels then Response(s, g, defaultValue, k, n, r, c, ch) else 0.0;

    for i := 0 to source.height
      modifies buffer
      invariant Progress(g, buffer[..], s, e, i, 0, 0)
      invariant source.data[..] == s && filter.data[..] == k
    {
      for j := 0 to source.width
        modifies buffer
        invariant Progress(g, buffer[..], s, e, i, j, 0)
        invariant source.data[..] == s && filter.data[..] == k
      {
        for chan := 0 to 3
          modifies buffer
          invariant Progress(g, buffer[..], s, e, i, j, chan)
          invariant source.data[..] == s && filter.data[..] == k
        {
          var value := ConvolveAt(source, filter, defaultValue, i, j, chan);
          assert value == e(i, j, chan);
          ghost var before := buffer[..];
          ProgressWrite(g, before, s, e, i, j, chan);
          buffer[source.channels * (source.width * i + j) + chan] := value;
          assert buffer[..] == before[g.Index(i, j, chan) := e(i, j, chan)];
        }
      }
    }

    FillArray(source.data, buffer, source.data.Length);
    assert source.data[..] == buffer[..];
  }
}
