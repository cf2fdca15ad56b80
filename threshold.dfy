/** Double thresholding of suppressed gradient magnitudes (doubleThreshold in
    imageProcessing.js). 127 marks a weak edge and 255 a strong edge. */
module Threshold {
  import opened Grid

  const Strong: real := 255.0
  const Weak: real := 127.0
  const NonEdge: real := 0.0

  /** The class of one magnitude: above hi is strong, above lo (and at most hi) weak, anything else no edge. */
  function Classify(value: real, hi: real, lo: real): (r: real)
    ensures r == NonEdge || r == Weak || r == Strong
    ensures r == Strong <==> value > hi
    ensures r == Weak <==> lo < value <= hi
  {
    if value > hi then Strong else if value > lo then Weak else NonEdge
  }

  /** Classification never reverses the order of two magnitudes. */
  lemma ClassifyMonotone(v1: real, v2: real, hi: real, lo: real)
    requires v1 <= v2
    ensures Classify(v1, hi, lo) <= Classify(v2, hi, lo)
  {
  }

  /** Classifies channel 0 of every pixel, border included, into channels 0..2; channel 3 is not touched.
      hi > lo is never checked. */
  method DoubleThreshold(source: Array2D, hi: real, lo: real)
    requires source.Valid() && source.channels >= 3
    modifies source.data
    ensures forall r, c, ch :: source.Dims().InRange(r, c, ch) ==>
              source.data[source.Dims().Index(r, c, ch)] ==
                if ch < 3 then Classify(old(source.data[source.Dims().Index(r, c, 0)]), hi, lo)
                else old(source.data[source.Dims().Index(r, c, ch)])
  {
    var g := source.Dims();
    for i := 0 to source.height
      invariant forall r, c, ch :: g.InRange(r, c, ch) ==>
                  source.data[g.Index(r, c, ch)] ==
                    if ch < 3 && Before(r, c, i, 0) then Classify(old(source.data[g.Index(r, c, 0)]), hi, lo)
                    else old(source.data[g.Index(r, c, ch)])
    {
      for j := 0 to source.width
        invariant forall r, c, ch :: g.InRange(r, c, ch) ==>
                    source.data[g.Index(r, c, ch)] ==
                      if ch < 3 && Before(r, c, i, j) then Classify(old(source.data[g.Index(r, c, 0)]), hi, lo)
                      else old(source.data[g.Index(r, c, ch)])
      {
        var value := source.GetValue(i, j);
        var res := 0.0;
        if value > hi {
          res := 255.0;
        } else if value > lo {
          res := 127.0;
        }
        source.SetValue(res, i, j, 0);
        source.SetValue(res, i, j, 1);
        source.SetValue(res, i, j, 2);
      }
    }
  }
}
