/** Per-pixel colour operations of imageProcessing.js: gamma expansion and
    grayscale conversion, channel filtering and isolation, and the affine
    stretch of channels 0..2 to a target range. Math.pow is a parameter. */
module Color {
  import opened Grid
  import opened Util

  /** Expands one sRGB component (a fraction of 255) into linear light.
      The divisor 12.96 and the grouping c + (0.055 / 1.055) are kept as the source has them. */
  function GammaExpand(c: real, pow: (real, real) -> real): real {
    if c <= 0.04045 then c / 12.96 else pow(c + 0.055 / 1.055, 2.4)
  }

  /** On the linear segment [0, 0.04045] expansion keeps the order of components and
      darkens every positive one: only 0 is a fixed point. */
  lemma GammaExpandLinear(c1: real, c2: real, pow: (real, real) -> real)
    requires 0.0 <= c1 <= c2 <= 0.04045
    ensures 0.0 <= GammaExpand(c1, pow) <= GammaExpand(c2, pow)
    ensures GammaExpand(c2, pow) <= c2 && (GammaExpand(c2, pow) == c2 <==> c2 == 0.0)
  {
  }

  /** The gray level written for a pixel with components (red, green, blue): the
      linear-light luminance, gamma-compressed again and scaled to 0..255, rounded down. */
  function Luminance(red: real, green: real, blue: real, pow: (real, real) -> real): (y: real)
    ensures y == y.Floor as real
  {
    var rlin := GammaExpand(red / 255.0, pow);
    var glin := GammaExpand(green / 255.0, pow);
    var blin := GammaExpand(blue / 255.0, pow);
    var ylin := 0.2126 * rlin + 0.7152 * glin + 0.0722 * blin;
    var v := if ylin <= 0.0031308 then 12.92 * ylin else 1.055 * pow(ylin, 1.0 / 2.4);
    (255.0 * v).Floor as real
  }

  /** A black pixel stays black. */
  lemma LuminanceBlack(pow: (real, real) -> real)
    ensures Luminance(0.0, 0.0, 0.0, pow) == 0.0
  {
  }

  /** Because expansion divides by 12.96 while compression multiplies by 12.92, a dark
      gray pixel does not keep its level: (10, 10, 10) becomes 9. */
  lemma LuminanceDarkGray(pow: (real, real) -> real)
    ensures Luminance(10.0, 10.0, 10.0, pow) == 9.0
  {
    var c := 10.0 / 255.0;
    var lin := GammaExpand(c, pow);
    assert lin == c / 12.96;
    assert 0.2126 * lin + 0.7152 * lin + 0.0722 * lin == lin;
    assert lin <= 0.0031308;
    assert 255.0 * (12.92 * lin) == 129.2 / 12.96;
    assert 9.0 <= 129.2 / 12.96 < 10.0;
  }

  /** Replaces channels 0..2 of every pixel by its gray level; channel 3 is not touched.
      The source walks the buffer with a fixed stride of 4, so the grid must have four channels. */
  method Grayscale(source: Array2D, pow: (real, real) -> real)
    requires source.Valid() && source.channels == 4
    modifies source.data
    ensures forall r, c, ch :: source.Dims().InRange(r, c, ch) ==>
              source.data[source.Dims().Index(r, c, ch)] ==
                if ch < 3 then
                  Luminance(old(source.data[source.Dims().Index(r, c, 0)]), old(source.data[source.Dims().Index(r, c, 1)]),
                            old(source.data[source.Dims().Index(r, c, 2)]), pow)
                else old(source.data[source.Dims().Index(r, c, ch)])
  {
    var g := source.Dims();
    for i := 0 to source.height
      invariant forall r, c, ch :: g.InRange(r, c, ch) ==>
                  source.data[g.Index(r, c, ch)] ==
                    if ch < 3 && Before(r, c, i, 0) then
                      Luminance(old(source.data[g.Index(r, c, 0)]), old(source.data[g.Index(r, c, 1)]), old(source.data[g.Index(r, c, 2)]), pow)
                    else old(source.data[g.Index(r, c, ch)])
    {
      for j := 0 to source.width
        invariant forall r, c, ch :: g.InRange(r, c, ch) ==>
                    source.data[g.Index(r, c, ch)] ==
                      if ch < 3 && Before(r, c, i, j) then
                        Luminance(old(source.data[g.Index(r, c, 0)]), old(source.data[g.Index(r, c, 1)]), old(source.data[g.Index(r, c, 2)]), pow)
                      else old(source.data[g.Index(r, c, ch)])
      {
        var y := Luminance(source.GetValue(i, j, 0), source.GetValue(i, j, 1), source.GetValue(i, j, 2), pow);
        source.SetValue(y, i, j, 0);
        source.SetValue(y, i, j, 1);
        source.SetValue(y, i, j, 2);
      }
    }
  }

  /** Whether filterColor blanks channel ch under the given show flags. */
  predicate Hidden(showR: bool, showG: bool, showB: bool, ch: int) {
    (ch == 0 && !showR) || (ch == 1 && !showG) || (ch == 2 && !showB)
  }

  /** after is before with the channels the flags hide set to 0 in every pixel. */
  ghost predicate Filtered(before: seq<real>, after: seq<real>, g: Shape, showR: bool, showG: bool, showB: bool) {
    |before| == g.Size() && |after| == g.Size() &&
    forall r, c, ch :: g.InRange(r, c, ch) ==>
      after[g.Index(r, c, ch)] == if Hidden(showR, showG, showB, ch) then 0.0 else before[g.Index(r, c, ch)]
  }

  /** Sets channel 0, 1 or 2 of every pixel to 0 unless its show flag is set; other channels are not touched. */
  method FilterColor(source: Array2D, showR: bool, showG: bool, showB: bool)
    requires source.Valid() && source.channels >= 3
    modifies source.data
    ensures Filtered(old(source.data[..]), source.data[..], source.Dims(), showR, showG, showB)
  {
    var g := source.Dims();
    ghost var s := source.data[..];
    for i := 0 to source.height
      invariant |source.data[..]| == |s|
      invariant forall r, c, ch :: g.InRange(r, c, ch) ==>
                  source.data[g.Index(r, c, ch)] ==
                    if Hidden(showR, showG, showB, ch) && Before(r, c, i, 0) then 0.0 else s[g.Index(r, c, ch)]
    {
      for j := 0 to source.width
        invariant |source.data[..]| == |s|
        invariant forall r, c, ch :: g.InRange(r, c, ch) ==>
                    source.data[g.Index(r, c, ch)] ==
                      if Hidden(showR, showG, showB, ch) && Before(r, c, i, j) then 0.0 else s[g.Index(r, c, ch)]
      {
        source.SetValue(if showR then source.GetValue(i, j, 0) else 0.0, i, j, 0);
        source.SetValue(if showG then source.GetValue(i, j, 1) else 0.0, i, j, 1);
        source.SetValue(if showB then source.GetValue(i, j, 2) else 0.0, i, j, 2);
      }
    }
  }

  /** Filtering twice keeps exactly the channels both filters show. */
  lemma FilteredTwice(a: seq<real>, b: seq<real>, c: seq<real>, g: Shape,
                      r1: bool, g1: bool, b1: bool, r2: bool, g2: bool, b2: bool)
    requires Filtered(a, b, g, r1, g1, b1) && Filtered(b, c, g, r2, g2, b2)
    ensures Filtered(a, c, g, r1 && r2, g1 && g2, b1 && b2)
  {
  }

  /** Keeps only channel 0, 1 or 2 (zeroing the other two of 0..2); any other channel number changes nothing. */
  method IsolateColor(source: Array2D, channel: int)
    requires source.Valid() && source.channels >= 3
    modifies source.data
    ensures 0 <= channel < 3 ==>
              Filtered(old(source.data[..]), source.data[..], source.Dims(), channel == 0, channel == 1, channel == 2)
    ensures !(0 <= channel < 3) ==> source.data[..] == old(source.data[..])
  {
    if channel == 0 {
      FilterColor(source, true, false, false);
    } else if channel == 1 {
      FilterColor(source, false, true, false);
    } else if channel == 2 {
      FilterColor(source, false, false, true);
    }
  }

  /** Isolating a channel keeps that channel and blanks the other two of 0..2. */
  lemma IsolatedChannel(before: seq<real>, after: seq<real>, g: Shape, channel: int, r: int, c: int, ch: int)
    requires 0 <= channel < 3 && Filtered(before, after, g, channel == 0, channel == 1, channel == 2)
    requires g.InRange(r, c, ch) && ch < 3
    ensures after[g.Index(r, c, ch)] == if ch == channel then before[g.Index(r, c, ch)] else 0.0
  {
  }

  /** The affine map taking [min, max] onto [targetMin, targetMax], as the source writes it. */
  function Stretch(value: real, min: real, max: real, targetMin: real, targetMax: real): (r: real)
    requires max != min
    ensures value == min ==> r == targetMin
    ensures value == max ==> r == targetMax
  {
    DivSelf(max - min);
    (value - min) / (max - min) * (targetMax - targetMin) + targetMin
  }

  lemma DivSelf(d: real)
    requires d != 0.0
    ensures d / d == 1.0
  {
  }

  lemma DivMonotone(a: real, b: real, d: real)
    requires a <= b && d > 0.0
    ensures a / d <= b / d
  {
  }

  /** With max > min and targetMax >= targetMin the stretch preserves order. */
  lemma StretchMonotone(v1: real, v2: real, min: real, max: real, targetMin: real, targetMax: real)
    requires max > min && targetMax >= targetMin && v1 <= v2
    ensures Stretch(v1, min, max, targetMin, targetMax) <= Stretch(v2, min, max, targetMin, targetMax)
  {
    var f1 := (v1 - min) / (max - min);
    var f2 := (v2 - min) / (max - min);
    DivMonotone(v1 - min, v2 - min, max - min);
    MulRight(f1, f2, targetMax - targetMin);
    assert Stretch(v1, min, max, targetMin, targetMax) == f1 * (targetMax - targetMin) + targetMin;
    assert Stretch(v2, min, max, targetMin, targetMax) == f2 * (targetMax - targetMin) + targetMin;
  }

  /** A value inside [min, max] lands inside [targetMin, targetMax]. */
  lemma StretchRange(v: real, min: real, max: real, targetMin: real, targetMax: real)
    requires max > min && targetMax >= targetMin && min <= v <= max
    ensures targetMin <= Stretch(v, min, max, targetMin, targetMax) <= targetMax
  {
    StretchMonotone(min, v, min, max, targetMin, targetMax);
    StretchMonotone(v, max, min, max, targetMin, targetMax);
  }

  /** Stretching back from the target range to the source range undoes a stretch. */
  lemma StretchInverse(v: real, min: real, max: real, targetMin: real, targetMax: real)
    requires max != min && targetMax != targetMin
    ensures Stretch(Stretch(v, min, max, targetMin, targetMax), targetMin, targetMax, min, max) == v
  {
    var f := (v - min) / (max - min);
    var w := f * (targetMax - targetMin) + targetMin;
    assert w - targetMin == f * (targetMax - targetMin);
    assert (w - targetMin) / (targetMax - targetMin) == f;
    assert f * (max - min) == v - min;
  }

  /** Stretches channels 0..2 of every pixel from [min, max] to [targetMin, targetMax]; channel 3 is not touched.
      The source divides by max - min without a check, so the two must differ. */
  method StretchColorRange(source: Array2D, min: real, max: real, targetMin: real := 0.0, targetMax: real := 255.0)
    requires source.Valid() && source.channels >= 3 && max != min
    modifies source.data
    ensures forall r, c, ch :: source.Dims().InRange(r, c, ch) ==>
              source.data[source.Dims().Index(r, c, ch)] ==
                if ch < 3 then Stretch(old(source.data[source.Dims().Index(r, c, ch)]), min, max, targetMin, targetMax)
                else old(source.data[source.Dims().Index(r, c, ch)])
  {
    var g := source.Dims();
    ghost var s := source.data[..];
    for i := 0 to source.height
      invariant |source.data[..]| == |s|
      invariant forall r, c, ch :: g.InRange(r, c, ch) ==>
                  source.data[g.Index(r, c, ch)] ==
                    if ch < 3 && Before(r, c, i, 0) then Stretch(s[g.Index(r, c, ch)], min, max, targetMin, targetMax)
                    else s[g.Index(r, c, ch)]
    {
      for j := 0 to source.width
        invariant |source.data[..]| == |s|
        invariant forall r, c, ch :: g.InRange(r, c, ch) ==>
                    source.data[g.Index(r, c, ch)] ==
                      if ch < 3 && Before(r, c, i, j) then Stretch(s[g.Index(r, c, ch)], min, max, targetMin, targetMax)
                      else s[g.Index(r, c, ch)]
      {
        for k := 0 to 3
          invariant |source.data[..]| == |s|
          invariant forall r, c, ch :: g.InRange(r, c, ch) ==>
                      source.data[g.Index(r, c, ch)] ==
                        if ch < 3 && (Before(r, c, i, j) || (r == i && c == j && ch < k)) then
                          Stretch(s[g.Index(r, c, ch)], min, max, targetMin, targetMax)
                        else s[g.Index(r, c, ch)]
        {
          var value := source.GetValue(i, j, k);
          ghost var before := value;
          value := (value - min) / (max - min) * (targetMax - targetMin) + targetMin;
          assert value == Stretch(before, min, max, targetMin, targetMax);
          source.SetValue(value, i, j, k);
        }
      }
    }
  }

  /** Math.max folded left to right over a non-empty sequence, as Array.prototype.reduce does. */
  function MaxOf(s: seq<real>): (m: real)
    requires |s| > 0
    ensures m in s && forall x :: x in s ==> x <= m
  {
    if |s| == 1 then s[0]
    else
      var rest := MaxOf(s[..|s| - 1]);
      assert forall x :: x in s ==> x in s[..|s| - 1] || x == s[|s| - 1];
      if s[|s| - 1] > rest then s[|s| - 1] else rest
  }

  /** Math.min folded left to right over a non-empty sequence. */
  function MinOf(s: seq<real>): (m: real)
    requires |s| > 0
    ensures m in s && forall x :: x in s ==> m <= x
  {
    if |s| == 1 then s[0]
    else
      var rest := MinOf(s[..|s| - 1]);
      assert forall x :: x in s ==> x in s[..|s| - 1] || x == s[|s| - 1];
      if s[|s| - 1] < rest then s[|s| - 1] else rest
  }

  /** Stretches channels 0..2 from the smallest and largest sample of the whole buffer
      (alpha included) to [targetMin, targetMax]. The source's reduce throws on an empty
      buffer and its stretch divides by zero when all samples are equal; in both cases the
      model reports failure and changes nothing. */
  method StretchColor(source: Array2D, targetMin: real := 0.0, targetMax: real := 255.0) returns (ok: bool)
    requires source.Valid() && source.channels >= 3
    modifies source.data
    ensures ok <==> source.data.Length > 0 && MaxOf(old(source.data[..])) != MinOf(old(source.data[..]))
    ensures !ok ==> source.data[..] == old(source.data[..])
    ensures ok ==> forall r, c, ch :: source.Dims().InRange(r, c, ch) ==>
              source.data[source.Dims().Index(r, c, ch)] ==
                if ch < 3 then
                  Stretch(old(source.data[source.Dims().Index(r, c, ch)]), MinOf(old(source.data[..])), MaxOf(old(source.data[..])), targetMin, targetMax)
                else old(source.data[source.Dims().Index(r, c, ch)])
  {
    if source.data.Length == 0 {
      return false;
    }
    var max := MaxOf(source.data[..]);
    var min := MinOf(source.data[..]);
    if max == min {
      return false;
    }
    StretchColorRange(source, min, max, targetMin, targetMax);
    ok := true;
  }

  /** After a successful stretchColor every colour sample lies in [targetMin, targetMax]. */
  lemma StretchColorRangeBound(s: seq<real>, v: real, targetMin: real, targetMax: real)
    requires |s| > 0 && MaxOf(s) != MinOf(s) && targetMax >= targetMin && v in s
    ensures targetMin <= Stretch(v, MinOf(s), MaxOf(s), targetMin, targetMax) <= targetMax
  {
    StretchRange(v, MinOf(s), MaxOf(s), targetMin, targetMax);
  }
}
