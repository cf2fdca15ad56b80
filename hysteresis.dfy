/** Edge tracking by hysteresis (edgeConnect in imageProcessing.js). One row-major pass
    over the interior, in place: a weak pixel (127 in channel 0) becomes strong (255) when
    one of the nine pixels of its 3x3 block holds 255 in channel 0 at the moment it is
    visited, and 0 otherwise. Pixels promoted earlier in the pass count as strong for the
    pixels visited after them. */
module Hysteresis {
  import opened Grid
  import opened Threshold

  /** Channel 0 of the pixel at offset (r, c) from interior pixel (i, j). */
  function Neighbour(s: seq<real>, g: Shape, i: int, j: int, r: int, c: int): real
    requires |s| == g.Size() && g.channels >= 1 && InFrame(g, 1, i, j) && -1 <= r <= 1 && -1 <= c <= 1
  {
    s[g.Index(i + r, j + c, 0)]
  }

  /** Some pixel of the 3x3 block around (i, j) that comes before (dr, dc) in the scan
      order of the offsets is strong in channel 0. */
  ghost predicate Seen(s: seq<real>, g: Shape, i: int, j: int, dr: int, dc: int)
    requires |s| == g.Size() && g.channels >= 1 && InFrame(g, 1, i, j)
  {
    exists r, c :: -1 <= r <= 1 && -1 <= c <= 1 && Before(r, c, dr, dc) && Neighbour(s, g, i, j, r, c) == Strong
  }

  /** Some pixel of the 3x3 block around (i, j), the pixel itself included, is strong. */
  ghost predicate StrongNear(s: seq<real>, g: Shape, i: int, j: int)
    requires |s| == g.Size() && g.channels >= 1 && InFrame(g, 1, i, j)
  {
    exists r, c :: -1 <= r <= 1 && -1 <= c <= 1 && Neighbour(s, g, i, j, r, c) == Strong
  }

  /** What the pass does at interior pixel (i, j) of the current samples t: a weak pixel
      gets 255 or 0 in channels 0..2; any other pixel is left alone. */
  ghost function Visit(t: seq<real>, g: Shape, i: int, j: int): (u: seq<real>)
    requires |t| == g.Size() && g.channels >= 3 && InFrame(g, 1, i, j)
    ensures |u| == |t|
  {
    if t[g.Index(i, j, 0)] == Weak then
      var v := if StrongNear(t, g, i, j) then Strong else NonEdge;
      t[g.Index(i, j, 0) := v][g.Index(i, j, 1) := v][g.Index(i, j, 2) := v]
    else t
  }

  /** The samples after visiting pixels 1 .. j - 1 of row i, starting from t. */
  ghost function ProcessRow(t: seq<real>, g: Shape, i: int, j: int): (u: seq<real>)
    requires |t| == g.Size() && g.channels >= 3 && 1 <= j && (j > 1 ==> InFrame(g, 1, i, j - 1))
    ensures |u| == |t|
    decreases j
  {
    if j <= 1 then t else Visit(ProcessRow(t, g, i, j - 1), g, i, j - 1)
  }

  /** The last column index the inner loop stops at: width - 1, or 1 when there is no interior column. */
  function RowEnd(g: Shape): int {
    if g.width >= 2 then g.width - 1 else 1
  }

  /** The samples after rows 1 .. i - 1 have been processed, starting from s. */
  ghost function ProcessRows(s: seq<real>, g: Shape, i: int): (u: seq<real>)
    requires |s| == g.Size() && g.channels >= 3 && 1 <= i && (i > 1 ==> i - 1 < g.height - 1)
    ensures |u| == |s|
    decreases i
  {
    if i <= 1 then s else ProcessRow(ProcessRows(s, g, i - 1), g, i - 1, RowEnd(g))
  }

  /** The samples just before the pass visits interior pixel (i, j). */
  ghost function StateAt(s: seq<real>, g: Shape, i: int, j: int): (u: seq<real>)
    requires |s| == g.Size() && g.channels >= 3 && InFrame(g, 1, i, j)
    ensures |u| == |s|
  {
    ProcessRow(ProcessRows(s, g, i), g, i, j)
  }

  /** The result of the whole pass. */
  ghost function EdgeConnected(s: seq<real>, g: Shape): (u: seq<real>)
    requires |s| == g.Size() && g.channels >= 3
    ensures |u| == |s|
  {
    ProcessRows(s, g, if g.height >= 2 then g.height - 1 else 1)
  }

  /** Promotes or clears every interior weak pixel of source, in place. */
  method EdgeConnect(source: Array2D)
    requires source.Valid() && source.channels >= 3
    modifies source.data
    ensures source.data[..] == EdgeConnected(old(source.data[..]), source.Dims())
  {
    ghost var s := source.data[..];
    ghost var g := source.Dims();
    var i := 1;
    while i < source.height - 1
      invariant 1 <= i && (i > 1 ==> i - 1 < source.height - 1)
      invariant source.data[..] == ProcessRows(s, g, i)
      decreases source.height - i
    {
      var j := 1;
      while j < source.width - 1
        invariant 1 <= j <= RowEnd(g)
        invariant source.data[..] == ProcessRow(ProcessRows(s, g, i), g, i, j)
        decreases source.width - j
      {
        var value := source.GetValue(i, j);
        if value == 127.0 {
          var strongDetected := StrongDetected(source, i, j);
          var res := if strongDetected then 255.0 else 0.0;
          SetRgb(source, res, i, j);
        }
        j := j + 1;
      }
      i := i + 1;
    }
  }

  /** The neighbourhood scan of edgeConnect: whether some pixel of the 3x3 block around
      (i, j) holds 255 in channel 0. */
  method StrongDetected(source: Array2D, i: int, j: int) returns (strongDetected: bool)
    requires source.Valid() && InFrame(source.Dims(), 1, i, j)
    ensures strongDetected == StrongNear(source.data[..], source.Dims(), i, j)
  {
    ghost var s := source.data[..];
    ghost var g := source.Dims();
    strongDetected := false;
    for rowOffset := -1 to 2
      invariant strongDetected == Seen(s, g, i, j, rowOffset, -1)
    {
      for colOffset := -1 to 2
        invariant strongDetected == Seen(s, g, i, j, rowOffset, colOffset)
      {
        if source.GetValue(i + rowOffset, j + colOffset) == 255.0 {
          strongDetected := true;
        }
        SeenStep(s, g, i, j, rowOffset, colOffset);
      }
      SeenRow(s, g, i, j, rowOffset);
    }
    SeenAll(s, g, i, j);
  }

  /** Scanning one more offset adds exactly that pixel to what has been seen. */
  lemma SeenStep(s: seq<real>, g: Shape, i: int, j: int, dr: int, dc: int)
    requires |s| == g.Size() && g.channels >= 1 && InFrame(g, 1, i, j) && -1 <= dr <= 1 && -1 <= dc <= 1
    ensures Seen(s, g, i, j, dr, dc + 1) == (Seen(s, g, i, j, dr, dc) || Neighbour(s, g, i, j, dr, dc) == Strong)
  {
    if Seen(s, g, i, j, dr, dc + 1) {
      var r, c :| -1 <= r <= 1 && -1 <= c <= 1 && Before(r, c, dr, dc + 1) && Neighbour(s, g, i, j, r, c) == Strong;
      if !(r == dr && c == dc) {
        assert Before(r, c, dr, dc);
      }
    }
    if Neighbour(s, g, i, j, dr, dc) == Strong {
      assert Before(dr, dc, dr, dc + 1);
    }
    if Seen(s, g, i, j, dr, dc) {
      var r, c :| -1 <= r <= 1 && -1 <= c <= 1 && Before(r, c, dr, dc) && Neighbour(s, g, i, j, r, c) == Strong;
      assert Before(r, c, dr, dc + 1);
    }
  }

  /** Past the last column offset, the scan moves on to the next row offset. */
  lemma SeenRow(s: seq<real>, g: Shape, i: int, j: int, dr: int)
    requires |s| == g.Size() && g.channels >= 1 && InFrame(g, 1, i, j)
    ensures Seen(s, g, i, j, dr, 2) == Seen(s, g, i, j, dr + 1, -1)
  {
    if Seen(s, g, i, j, dr, 2) {
      var r, c :| -1 <= r <= 1 && -1 <= c <= 1 && Before(r, c, dr, 2) && Neighbour(s, g, i, j, r, c) == Strong;
      assert Before(r, c, dr + 1, -1);
    }
    if Seen(s, g, i, j, dr + 1, -1) {
      var r, c :| -1 <= r <= 1 && -1 <= c <= 1 && Before(r, c, dr + 1, -1) && Neighbour(s, g, i, j, r, c) == Strong;
      assert Before(r, c, dr, 2);
    }
  }

  /** Having scanned all nine offsets is StrongNear. */
  lemma SeenAll(s: seq<real>, g: Shape, i: int, j: int)
    requires |s| == g.Size() && g.channels >= 1 && InFrame(g, 1, i, j)
    ensures Seen(s, g, i, j, 2, -1) == StrongNear(s, g, i, j)
  {
    if StrongNear(s, g, i, j) {
      var r, c :| -1 <= r <= 1 && -1 <= c <= 1 && Neighbour(s, g, i, j, r, c) == Strong;
      assert Before(r, c, 2, -1);
    }
  }

  /** What the pass leaves at sample (r, c, ch) once pixel (i, j) is next: a weak interior
      pixel already visited holds 255 or 0 in channels 0..2, according to its block at the
      time of its visit; every other sample still holds its value in s. */
  ghost predicate Tracked(s: seq<real>, g: Shape, t: seq<real>, i: int, j: int)
    requires |s| == g.Size() && g.channels >= 3
  {
    |t| == |s| &&
    forall r, c, ch {:trigger t[g.Index(r, c, ch)]} :: g.InRange(r, c, ch) ==>
      t[g.Index(r, c, ch)] ==
        if ch < 3 && InFrame(g, 1, r, c) && Before(r, c, i, j) && s[g.Index(r, c, 0)] == Weak then
          (if StrongNear(StateAt(s, g, r, c), g, r, c) then Strong else NonEdge)
        else s[g.Index(r, c, ch)]
  }

  /** A visit writes channels 0..2 of its own pixel and nothing else. */
  lemma VisitCells(t: seq<real>, g: Shape, i: int, j: int)
    requires |t| == g.Size() && g.channels >= 3 && InFrame(g, 1, i, j)
    ensures forall r, c, ch {:trigger Visit(t, g, i, j)[g.Index(r, c, ch)]} :: g.InRange(r, c, ch) ==>
              Visit(t, g, i, j)[g.Index(r, c, ch)] ==
                if r == i && c == j && ch < 3 && t[g.Index(i, j, 0)] == Weak then
                  (if StrongNear(t, g, i, j) then Strong else NonEdge)
                else t[g.Index(r, c, ch)]
  {
    IndexDistinct(g, i, j, 0);
    IndexDistinct(g, i, j, 1);
    IndexDistinct(g, i, j, 2);
  }

  /** Visiting pixel (i, j - 1) keeps the pass tracked one pixel further on. */
  lemma VisitTracked(s: seq<real>, g: Shape, i: int, j: int)
    requires |s| == g.Size() && g.channels >= 3 && InFrame(g, 1, i, j - 1)
    requires Tracked(s, g, ProcessRow(ProcessRows(s, g, i), g, i, j - 1), i, j - 1)
    ensures Tracked(s, g, ProcessRow(ProcessRows(s, g, i), g, i, j), i, j)
  {
    var p := j - 1;
    var t := StateAt(s, g, i, p);
    assert t[g.Index(i, p, 0)] == s[g.Index(i, p, 0)];
    VisitCells(t, g, i, p);
  }

  /** Row i of the pass, up to column j, is tracked. */
  lemma {:induction false} RowTracked(s: seq<real>, g: Shape, i: int, j: int)
    requires |s| == g.Size() && g.channels >= 3 && 1 <= i < g.height - 1 && 1 <= j <= RowEnd(g)
    ensures Tracked(s, g, ProcessRow(ProcessRows(s, g, i), g, i, j), i, j)
    decreases i, j
  {
    if j == 1 {
      RowsTracked(s, g, i);
    } else {
      RowTracked(s, g, i, j - 1);
      VisitTracked(s, g, i, j);
    }
  }

  /** The rows before row i of the pass are tracked. */
  lemma {:induction false} RowsTracked(s: seq<real>, g: Shape, i: int)
    requires |s| == g.Size() && g.channels >= 3 && 1 <= i && (i > 1 ==> i - 1 < g.height - 1)
    ensures Tracked(s, g, ProcessRows(s, g, i), i, 1)
    decreases i, 0
  {
    if i > 1 {
      RowTracked(s, g, i - 1, RowEnd(g));
      RowDone(s, g, ProcessRows(s, g, i), i);
    }
  }

  /** Having tracked all of row i - 1 is having tracked everything before row i. */
  lemma RowDone(s: seq<real>, g: Shape, t: seq<real>, i: int)
    requires |s| == g.Size() && g.channels >= 3 && Tracked(s, g, t, i - 1, RowEnd(g))
    ensures Tracked(s, g, t, i, 1)
  {
    forall r, c | InFrame(g, 1, r, c)
      ensures Before(r, c, i - 1, RowEnd(g)) == Before(r, c, i, 1)
    {
    }
  }

  /** The outcome of edgeConnect, sample by sample: channels 0..2 of every interior pixel
      that was weak become 255 when its 3x3 block held a strong pixel at the time of its
      visit and 0 otherwise; every other sample keeps its value. */
  lemma EdgeConnectedCells(s: seq<real>, g: Shape)
    requires |s| == g.Size() && g.channels >= 3
    ensures forall r, c, ch {:trigger EdgeConnected(s, g)[g.Index(r, c, ch)]} :: g.InRange(r, c, ch) ==>
              EdgeConnected(s, g)[g.Index(r, c, ch)] ==
                if ch < 3 && InFrame(g, 1, r, c) && s[g.Index(r, c, 0)] == Weak then
                  (if StrongNear(StateAt(s, g, r, c), g, r, c) then Strong else NonEdge)
                else s[g.Index(r, c, ch)]
  {
    RowsTracked(s, g, if g.height >= 2 then g.height - 1 else 1);
  }

  /** No interior pixel is left weak, and strong pixels are never lowered. */
  lemma EdgeConnectedSettles(s: seq<real>, g: Shape, r: int, c: int)
    requires |s| == g.Size() && g.channels >= 3 && g.InRange(r, c, 0)
    ensures InFrame(g, 1, r, c) ==> EdgeConnected(s, g)[g.Index(r, c, 0)] != Weak
    ensures s[g.Index(r, c, 0)] == Strong ==> EdgeConnected(s, g)[g.Index(r, c, 0)] == Strong
    ensures InFrame(g, 1, r, c) && s[g.Index(r, c, 0)] in {NonEdge, Weak, Strong} ==>
              EdgeConnected(s, g)[g.Index(r, c, 0)] in {NonEdge, Strong}
  {
    EdgeConnectedCells(s, g);
  }

  /** A sample that is strong just before pixel (i, j) is visited is strong in the result. */
  lemma StrongStays(s: seq<real>, g: Shape, i: int, j: int, r: int, c: int)
    requires |s| == g.Size() && g.channels >= 3 && InFrame(g, 1, i, j) && g.InRange(r, c, 0)
    requires StateAt(s, g, i, j)[g.Index(r, c, 0)] == Strong
    ensures EdgeConnected(s, g)[g.Index(r, c, 0)] == Strong
  {
    RowTracked(s, g, i, j);
    EdgeConnectedCells(s, g);
  }

  /** A weak interior pixel next to a pixel that is strong in the input is promoted. */
  lemma PromotedByInput(s: seq<real>, g: Shape, i: int, j: int)
    requires |s| == g.Size() && g.channels >= 3 && InFrame(g, 1, i, j)
    requires s[g.Index(i, j, 0)] == Weak && StrongNear(s, g, i, j)
    ensures EdgeConnected(s, g)[g.Index(i, j, 0)] == Strong
  {
    var r, c :| -1 <= r <= 1 && -1 <= c <= 1 && Neighbour(s, g, i, j, r, c) == Strong;
    var t := StateAt(s, g, i, j);
    RowTracked(s, g, i, j);
    assert Neighbour(t, g, i, j, r, c) == Strong;
    EdgeConnectedCells(s, g);
  }

  /** A weak interior pixel ends strong exactly when its block held a strong pixel at its visit. */
  lemma PromotedWhenStrongNear(s: seq<real>, g: Shape, i: int, j: int)
    requires |s| == g.Size() && g.channels >= 3 && InFrame(g, 1, i, j) && s[g.Index(i, j, 0)] == Weak
    ensures EdgeConnected(s, g)[g.Index(i, j, 0)] == Strong <==> StrongNear(StateAt(s, g, i, j), g, i, j)
  {
    EdgeConnectedCells(s, g);
  }

  /** Every pixel the pass promotes touches another pixel that is strong in the result:
      promoted pixels are connected to strong edges. */
  lemma PromotedSupported(s: seq<real>, g: Shape, i: int, j: int)
    requires |s| == g.Size() && g.channels >= 3 && InFrame(g, 1, i, j)
    requires s[g.Index(i, j, 0)] == Weak && EdgeConnected(s, g)[g.Index(i, j, 0)] == Strong
    ensures exists r, c :: -1 <= r <= 1 && -1 <= c <= 1 && (r != 0 || c != 0) &&
              Neighbour(EdgeConnected(s, g), g, i, j, r, c) == Strong
  {
    var r, c := StrongWhenVisited(s, g, i, j);
    StrongStays(s, g, i, j, i + r, j + c);
    assert Neighbour(EdgeConnected(s, g), g, i, j, r, c) == Strong;
  }

  /** A pixel the pass promotes had, when it was visited, a strong pixel among its eight
      neighbours: it was still weak itself at that moment. */
  lemma StrongWhenVisited(s: seq<real>, g: Shape, i: int, j: int) returns (r: int, c: int)
    requires |s| == g.Size() && g.channels >= 3 && InFrame(g, 1, i, j)
    requires s[g.Index(i, j, 0)] == Weak && EdgeConnected(s, g)[g.Index(i, j, 0)] == Strong
    ensures -1 <= r <= 1 && -1 <= c <= 1 && (r != 0 || c != 0)
    ensures StateAt(s, g, i, j)[g.Index(i + r, j + c, 0)] == Strong
  {
    var t := StateAt(s, g, i, j);
    PromotedWhenStrongNear(s, g, i, j);
    r, c :| -1 <= r <= 1 && -1 <= c <= 1 && Neighbour(t, g, i, j, r, c) == Strong;
    assert t[g.Index(i + r, j + c, 0)] == Strong;
    assert t[g.Index(i, j, 0)] == Weak by {
      RowTracked(s, g, i, j);
    }
  }
}
