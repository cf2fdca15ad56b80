/** The pixel grid of imageProcessing.js: a flat, row-major, channel-interleaved
    buffer whose sample (row, col, chan) is stored at channels*(width*row+col)+chan. */
module Grid {

  /** The shape of a grid and its index arithmetic, as a value. */
  datatype Shape = Shape(width: nat, height: nat, channels: nat) {

    function Size(): nat {
      width * height * channels
    }

    predicate InRange(row: int, col: int, chan: int) {
      0 <= row < height && 0 <= col < width && 0 <= chan < channels
    }

    /** Where getValue and setValue look for (row, col, chan). */
    function Index(row: int, col: int, chan: int): (k: int)
      ensures InRange(row, col, chan) ==> 0 <= k < Size()
    {
      PositionBound(width, height, channels, row, col, chan);
      channels * (width * row + col) + chan
    }
  }

  /** (r, c) comes strictly before (i, j) in row-major order. */
  predicate Before(r: int, c: int, i: int, j: int) {
    r < i || (r == i && c < j)
  }

  lemma MulMonotone(a: nat, b: int, c: int)
    requires b <= c
    ensures a * b <= a * c
  {
  }

  /** Division by a positive n has a unique quotient and remainder. */
  lemma {:induction false} DivUnique(n: nat, q1: int, r1: int, q2: int, r2: int)
    requires 0 <= r1 < n && 0 <= r2 < n
    requires n * q1 + r1 == n * q2 + r2
    ensures q1 == q2 && r1 == r2
  {
    if q1 < q2 {
      MulMonotone(n, q1 + 1, q2);
    } else if q2 < q1 {
      MulMonotone(n, q2 + 1, q1);
    }
  }

  /** Every in-range position has an index inside the buffer. */
  lemma PositionBound(w: nat, h: nat, c: nat, row: int, col: int, chan: int)
    ensures 0 <= row < h && 0 <= col < w && 0 <= chan < c ==> 0 <= c * (w * row + col) + chan < w * h * c
  {
    if 0 <= row < h && 0 <= col < w && 0 <= chan < c {
      var p := w * row + col;
      MulMonotone(w, 0, row);
      MulMonotone(w, row + 1, h);
      assert 0 <= p < w * h;
      MulMonotone(c, 0, p);
      MulMonotone(c, p + 1, w * h);
    }
  }

  /** Two in-range positions share an index only if they are the same position. */
  lemma IndexInjective(g: Shape, r1: int, c1: int, ch1: int, r2: int, c2: int, ch2: int)
    requires g.InRange(r1, c1, ch1) && g.InRange(r2, c2, ch2)
    requires g.Index(r1, c1, ch1) == g.Index(r2, c2, ch2)
    ensures r1 == r2 && c1 == c2 && ch1 == ch2
  {
    DivUnique(g.channels, g.width * r1 + c1, ch1, g.width * r2 + c2, ch2);
    DivUnique(g.width, r1, c1, r2, c2);
  }

  /** The position written last is distinct from every other in-range position. */
  lemma IndexDistinct(g: Shape, row: int, col: int, chan: int)
    requires g.InRange(row, col, chan)
    ensures forall r, c, ch :: g.InRange(r, c, ch) && (r != row || c != col || ch != chan) ==>
              g.Index(r, c, ch) != g.Index(row, col, chan)
  {
    forall r, c, ch | g.InRange(r, c, ch) && g.Index(r, c, ch) == g.Index(row, col, chan)
      ensures r == row && c == col && ch == chan
    {
      IndexInjective(g, r, c, ch, row, col, chan);
    }
  }

  /** (r, c) lies at least `border` pixels away from every edge of the grid. */
  predicate InFrame(g: Shape, border: nat, r: int, c: int) {
    border <= r < g.height - border && border <= c < g.width - border
  }

  /** b is base except that channels 0..2 of every pixel of the frame that comes before
      (i, j) in row-major order hold f of that pixel: the state of a row-major pass that
      paints the pixels at least `border` away from the edges. */
  ghost predicate RgbFilled(g: Shape, b: seq<real>, base: seq<real>, f: (int, int) -> real, border: nat, i: int, j: int) {
    |b| == g.Size() && |base| == g.Size() &&
    forall r, c, ch :: g.InRange(r, c, ch) ==>
      b[g.Index(r, c, ch)] == if ch < 3 && InFrame(g, border, r, c) && Before(r, c, i, j) then f(r, c) else base[g.Index(r, c, ch)]
  }

  /** Painting channels 0..2 of pixel (i, j) moves the pass on by one pixel. */
  lemma RgbFilledPixel(g: Shape, b: seq<real>, base: seq<real>, f: (int, int) -> real, border: nat, i: int, j: int, v: real)
    requires RgbFilled(g, b, base, f, border, i, j) && g.InRange(i, j, 2) && InFrame(g, border, i, j) && v == f(i, j)
    ensures RgbFilled(g, b[g.Index(i, j, 0) := v][g.Index(i, j, 1) := v][g.Index(i, j, 2) := v], base, f, border, i, j + 1)
  {
    var b' := b[g.Index(i, j, 0) := v][g.Index(i, j, 1) := v][g.Index(i, j, 2) := v];
    forall r, c, ch | g.InRange(r, c, ch)
      ensures b'[g.Index(r, c, ch)] == if ch < 3 && InFrame(g, border, r, c) && Before(r, c, i, j + 1) then f(r, c) else base[g.Index(r, c, ch)]
    {
      if r == i && c == j && ch < 3 {
      } else {
        IndexDistinct(g, i, j, 0);
        IndexDistinct(g, i, j, 1);
        IndexDistinct(g, i, j, 2);
      }
    }
  }

  /** Finishing the frame's part of a row moves the pass to the start of the next one. */
  lemma RgbFilledRow(g: Shape, b: seq<real>, base: seq<real>, f: (int, int) -> real, border: nat, i: int, j: int)
    requires RgbFilled(g, b, base, f, border, i, j) && j >= g.width - border
    ensures RgbFilled(g, b, base, f, border, i + 1, border)
  {
  }

  /** A 2D grid with channels. The shape never changes; only the samples in
      `data` are overwritten, and `data` may be shared with the caller. */
  class Array2D {
    const data: array<real>
    const width: nat
    const height: nat
    const channels: nat

    /** The constructor does not check it, so every user of a grid requires it. */
    ghost predicate Valid() {
      channels >= 1 && data.Length == width * height * channels
    }

    function Dims(): Shape {
      Shape(width, height, channels)
    }

    constructor (data: array<real>, width: nat, height: nat, channels: nat := 1)
      requires channels >= 1 && data.Length == width * height * channels
      ensures this.data == data && this.width == width && this.height == height && this.channels == channels
      ensures Valid()
    {
      this.data := data;
      this.width := width;
      this.height := height;
      this.channels := channels;
    }

    /** Row of the centre pixel, floor(height / 2). */
    function CenterRow(): (r: nat)
      ensures 2 * r <= height < 2 * r + 2
    {
      height / 2
    }

    /** Column of the centre pixel, floor(width / 2). */
    function CenterCol(): (c: nat)
      ensures 2 * c <= width < 2 * c + 2
    {
      width / 2
    }

    /** Reads one sample. The channels of a pixel sit next to each other, from its channel 0 on. */
    function GetValue(row: int, col: int, chan: int := 0): (v: real)
      reads data
      requires Valid() && Dims().InRange(row, col, chan)
      ensures Dims().Index(row, col, 0) + chan == Dims().Index(row, col, chan) && v == data[Dims().Index(row, col, 0) + chan]
    {
      var k := Dims().Index(row, col, chan);
      data[k]
    }

    /** Writes one sample; a later GetValue there returns it and no other sample changes. */
    method SetValue(value: real, row: int, col: int, chan: int := 0)
      requires Valid() && Dims().InRange(row, col, chan)
      modifies data
      ensures data[..] == old(data[..])[Dims().Index(row, col, chan) := value]
      ensures GetValue(row, col, chan) == value
      ensures forall r, c, ch :: Dims().InRange(r, c, ch) && (r != row || c != col || ch != chan) ==>
                data[Dims().Index(r, c, ch)] == old(data[Dims().Index(r, c, ch)])
    {
      var g := Dims();
      var k := g.Index(row, col, chan);
      data[k] := value;
      forall r, c, ch | g.InRange(r, c, ch) && (r != row || c != col || ch != chan)
        ensures data[g.Index(r, c, ch)] == old(data[g.Index(r, c, ch)])
      {
        if g.Index(r, c, ch) == k {
          IndexInjective(g, r, c, ch, row, col, chan);
        }
      }
    }
  }

  /** The three setValue calls every stage makes for one pixel: channels 0..2 of
      (row, col) become value, in that order. */
  method SetRgb(grid: Array2D, value: real, row: int, col: int)
    requires grid.Valid() && grid.Dims().InRange(row, col, 2)
    modifies grid.data
    ensures grid.data[..] == old(grid.data[..])[grid.Dims().Index(row, col, 0) := value]
                               [grid.Dims().Index(row, col, 1) := value][grid.Dims().Index(row, col, 2) := value]
  {
    grid.SetValue(value, row, col, 0);
    grid.SetValue(value, row, col, 1);
    grid.SetValue(value, row, col, 2);
  }
}
