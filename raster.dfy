/**
 * The pixel-level model behind RefRenderer::drawLine (refRenderer.cpp):
 * clamping of the endpoints to the image, the all-octant integer Bresenham
 * walk with its two inner breaks, and painting a walk into an RGBA frame
 * buffer of 4 * width * height samples, pixel (x, y) at 4 * (y * width + x).
 */
module Raster {
  import opened Colors

  function Abs(v: int): nat {
    if v < 0 then -v else v
  }

  /** Distance between two coordinates on one axis. */
  function Dist(a: int, b: int): nat {
    Abs(b - a)
  }

  /** `v` lies between `a` and `b`, in either order. */
  predicate Between(a: int, v: int, b: int) {
    (a <= v <= b) || (b <= v <= a)
  }

  /** The CLAMP of the renderer: max(lo, min(v, hi)). */
  function Clamp(v: int, lo: int, hi: int): (r: int)
    ensures lo <= hi ==> lo <= r <= hi
    ensures lo <= v <= hi ==> r == v
  {
    var m := if v < hi then v else hi;
    if lo < m then m else lo
  }

  /** The C++ conversion of a float to int: truncation toward zero. */
  function Trunc(v: real): (t: int)
    ensures v >= 0.0 ==> t as real <= v < t as real + 1.0
    ensures v < 0.0 ==> t as real - 1.0 < v <= t as real
  {
    if v >= 0.0 then v.Floor else -((-v).Floor)
  }

  /** A normalised coordinate scaled to the image extent and truncated, as drawTree hands it over. */
  function ToPixel(v: real, extent: int): int {
    Trunc(v * extent as real)
  }

  /** A scaled coordinate shifted down by one and clamped to 0 .. extent - 1. */
  function ScreenCoord(p: int, extent: int): (r: int)
    requires extent > 0
    ensures 0 <= r < extent
    ensures 1 <= p <= extent ==> r == p - 1
  {
    Clamp(p - 1, 0, extent - 1)
  }

  // ---------------------------------------------------------------- Bresenham

  /** The constants of one line: its end point, |Δx|, -|Δy|, and the step direction on each axis. */
  datatype Line = Line(x1: int, y1: int, dx: int, dy: int, sx: int, sy: int)

  /** The set-up of drawLine for a line from (x0, y0) to (x1, y1). */
  function Setup(x0: int, y0: int, x1: int, y1: int): Line {
    Line(x1, y1, Abs(x1 - x0), 0 - Abs(y1 - y0), if x0 < x1 then 1 else -1, if y0 < y1 then 1 else -1)
  }

  /** `v` has not passed `target` when stepping by `s`. */
  predicate Toward(v: int, target: int, s: int) {
    if s == 1 then v <= target else s == -1 && v >= target
  }

  /** A position the walk may stand on: Δx >= 0 >= Δy, and neither coordinate past the end point. */
  predicate Moving(ln: Line, x: int, y: int) {
    ln.dy <= 0 <= ln.dx && Toward(x, ln.x1, ln.sx) && Toward(y, ln.y1, ln.sy)
  }

  /**
   * The pixels the loop of drawLine plots from (x, y) with error `err`, in
   * order: the current pixel, then, unless it is the end point or a break
   * fires, the pixels from the next position.
   */
  function PathFrom(ln: Line, x: int, y: int, err: int): (path: seq<(int, int)>)
    requires Moving(ln, x, y)
    ensures |path| >= 1 && path[0] == (x, y)
    decreases Dist(x, ln.x1) + Dist(y, ln.y1)
  {
    if x == ln.x1 && y == ln.y1 then [(x, y)]
    else
      var e2 := 2 * err;
      if e2 >= ln.dy && x == ln.x1 then [(x, y)]
      else
        var stepX := e2 >= ln.dy;
        var x' := if stepX then x + ln.sx else x;
        var errX := if stepX then err + ln.dy else err;
        if e2 <= ln.dx && y == ln.y1 then [(x, y)]
        else
          var stepY := e2 <= ln.dx;
          var y' := if stepY then y + ln.sy else y;
          var errY := if stepY then errX + ln.dx else errX;
          [(x, y)] + PathFrom(ln, x', y', errY)
  }

  /** The pixels drawLine plots for a line from (x0, y0) to (x1, y1), given on screen. */
  function Path(x0: int, y0: int, x1: int, y1: int): (path: seq<(int, int)>)
    ensures |path| >= 1 && path[0] == (x0, y0)
  {
    var ln := Setup(x0, y0, x1, y1);
    PathFrom(ln, x0, y0, ln.dx + ln.dy)
  }

  /**
   * The error term of Bresenham's walk: the initial Δx + Δy, plus Δy for
   * each step taken along x and Δx for each step taken along y.
   */
  ghost predicate ErrorInvariant(ln: Line, x: int, y: int, err: int) {
    && Dist(x, ln.x1) <= ln.dx && Dist(y, ln.y1) <= -ln.dy
    && err == ln.dx + ln.dy - Dist(x, ln.x1) * ln.dy - Dist(y, ln.y1) * ln.dx
  }

  /** Under the error invariant the x-break never fires: x only stops at x1 together with y. */
  lemma NoEarlyXBreak(ln: Line, x: int, y: int, err: int)
    requires Moving(ln, x, y) && ErrorInvariant(ln, x, y, err)
    requires !(x == ln.x1 && y == ln.y1) && 2 * err >= ln.dy
    ensures x != ln.x1
  {
    var ry := Dist(y, ln.y1);
    assert ry * ln.dx == ln.dx + (ry - 1) * ln.dx;
    if ry >= 1 {
      assert (ry - 1) * ln.dx >= 0;
    }
  }

  /** Under the error invariant the y-break never fires. */
  lemma NoEarlyYBreak(ln: Line, x: int, y: int, err: int)
    requires Moving(ln, x, y) && ErrorInvariant(ln, x, y, err)
    requires !(x == ln.x1 && y == ln.y1) && 2 * err <= ln.dx
    ensures y != ln.y1
  {
    var rx := Dist(x, ln.x1);
    assert rx * ln.dy == ln.dy + (rx - 1) * ln.dy;
    if rx >= 1 {
      assert (rx - 1) * ln.dy <= 0;
    }
  }

  /** A step along x toward x1 keeps the error invariant. */
  lemma StepXKeeps(ln: Line, x: int, y: int, err: int)
    requires Moving(ln, x, y) && ErrorInvariant(ln, x, y, err) && x != ln.x1
    ensures Moving(ln, x + ln.sx, y) && ErrorInvariant(ln, x + ln.sx, y, err + ln.dy)
  {
    var rx := Dist(x, ln.x1);
    assert Dist(x + ln.sx, ln.x1) == rx - 1;
    assert (rx - 1) * ln.dy == rx * ln.dy - ln.dy;
  }

  /** A step along y toward y1 keeps the error invariant. */
  lemma StepYKeeps(ln: Line, x: int, y: int, err: int)
    requires Moving(ln, x, y) && ErrorInvariant(ln, x, y, err) && y != ln.y1
    ensures Moving(ln, x, y + ln.sy) && ErrorInvariant(ln, x, y + ln.sy, err + ln.dx)
  {
    var ry := Dist(y, ln.y1);
    assert Dist(y + ln.sy, ln.y1) == ry - 1;
    assert (ry - 1) * ln.dx == ry * ln.dx - ln.dx;
  }

  /** The position after one turn of the loop, when neither break fires. */
  function Next(ln: Line, x: int, y: int, err: int): (int, int, int) {
    var e2 := 2 * err;
    var x' := if e2 >= ln.dy then x + ln.sx else x;
    var errX := if e2 >= ln.dy then err + ln.dy else err;
    var y' := if e2 <= ln.dx then y + ln.sy else y;
    var errY := if e2 <= ln.dx then errX + ln.dx else errX;
    (x', y', errY)
  }

  /** A walk of more than one pixel is its first pixel followed by the walk from the next position. */
  lemma PathFromUnfold(ln: Line, x: int, y: int, err: int)
    requires Moving(ln, x, y) && |PathFrom(ln, x, y, err)| > 1
    ensures var (x', y', err') := Next(ln, x, y, err);
      && Moving(ln, x', y')
      && Adjacent((x, y), (x', y'))
      && Between(x, x', ln.x1) && Between(y, y', ln.y1)
      && PathFrom(ln, x, y, err) == [(x, y)] + PathFrom(ln, x', y', err')
  {
  }

  /** From a position that satisfies the error invariant the walk reaches the end point. */
  lemma {:induction false} PathFromEnds(ln: Line, x: int, y: int, err: int)
    requires Moving(ln, x, y) && ErrorInvariant(ln, x, y, err)
    ensures PathFrom(ln, x, y, err)[|PathFrom(ln, x, y, err)| - 1] == (ln.x1, ln.y1)
    decreases Dist(x, ln.x1) + Dist(y, ln.y1)
  {
    if !(x == ln.x1 && y == ln.y1) {
      var e2 := 2 * err;
      var (x', y', err') := Next(ln, x, y, err);
      var errX := if e2 >= ln.dy then err + ln.dy else err;
      if e2 >= ln.dy {
        NoEarlyXBreak(ln, x, y, err);
        StepXKeeps(ln, x, y, err);
      }
      if e2 <= ln.dx {
        NoEarlyYBreak(ln, x, y, err);
        StepYKeeps(ln, x', y, errX);
      }
      assert ErrorInvariant(ln, x', y', err');
      assert |PathFrom(ln, x, y, err)| > 1;
      PathFromUnfold(ln, x, y, err);
      PathFromEnds(ln, x', y', err');
    }
  }

  /** The walk of a whole line ends at its end point (x1, y1). */
  lemma PathEnds(x0: int, y0: int, x1: int, y1: int)
    ensures Path(x0, y0, x1, y1)[|Path(x0, y0, x1, y1)| - 1] == (x1, y1)
  {
    var ln := Setup(x0, y0, x1, y1);
    assert Moving(ln, x0, y0) && ErrorInvariant(ln, x0, y0, ln.dx + ln.dy);
    PathFromEnds(ln, x0, y0, ln.dx + ln.dy);
  }

  /** Two pixels that touch: different, and at most one apart on each axis. */
  predicate Adjacent(p: (int, int), q: (int, int)) {
    p != q && Dist(p.0, q.0) <= 1 && Dist(p.1, q.1) <= 1
  }

  /** Consecutive plotted pixels touch: the path is 8-connected. */
  lemma {:induction false} PathFromConnected(ln: Line, x: int, y: int, err: int)
    requires Moving(ln, x, y)
    ensures forall i :: 0 <= i < |PathFrom(ln, x, y, err)| - 1 ==>
      Adjacent(PathFrom(ln, x, y, err)[i], PathFrom(ln, x, y, err)[i + 1])
    decreases Dist(x, ln.x1) + Dist(y, ln.y1)
  {
    var p := PathFrom(ln, x, y, err);
    if |p| > 1 {
      PathFromUnfold(ln, x, y, err);
      var (x', y', err') := Next(ln, x, y, err);
      var rest := PathFrom(ln, x', y', err');
      PathFromConnected(ln, x', y', err');
      forall i | 0 <= i < |p| - 1
        ensures Adjacent(p[i], p[i + 1])
      {
        if i > 0 {
          assert p[i] == rest[i - 1] && p[i + 1] == rest[i];
        }
      }
    }
  }

  /** Every plotted pixel lies in the box spanned by the current position and the end point. */
  lemma {:induction false} PathFromInBox(ln: Line, x: int, y: int, err: int)
    requires Moving(ln, x, y)
    ensures forall i :: 0 <= i < |PathFrom(ln, x, y, err)| ==>
      Between(x, PathFrom(ln, x, y, err)[i].0, ln.x1) && Between(y, PathFrom(ln, x, y, err)[i].1, ln.y1)
    decreases Dist(x, ln.x1) + Dist(y, ln.y1)
  {
    var p := PathFrom(ln, x, y, err);
    if |p| > 1 {
      PathFromUnfold(ln, x, y, err);
      var (x', y', err') := Next(ln, x, y, err);
      var rest := PathFrom(ln, x', y', err');
      PathFromInBox(ln, x', y', err');
      forall i | 0 <= i < |p|
        ensures Between(x, p[i].0, ln.x1) && Between(y, p[i].1, ln.y1)
      {
        if i > 0 {
          assert p[i] == rest[i - 1];
        }
      }
    }
  }

  /** How far pixel `p` is from the end point, counted along both axes. */
  function Remaining(ln: Line, p: (int, int)): nat {
    Dist(p.0, ln.x1) + Dist(p.1, ln.y1)
  }

  /** Every plotted pixel is strictly closer to the end point than each pixel plotted before it. */
  lemma {:induction false} PathFromCloser(ln: Line, x: int, y: int, err: int)
    requires Moving(ln, x, y)
    ensures forall i, j :: 0 <= i < j < |PathFrom(ln, x, y, err)| ==>
      Remaining(ln, PathFrom(ln, x, y, err)[j]) < Remaining(ln, PathFrom(ln, x, y, err)[i])
    decreases Dist(x, ln.x1) + Dist(y, ln.y1)
  {
    var p := PathFrom(ln, x, y, err);
    if |p| > 1 {
      PathFromUnfold(ln, x, y, err);
      var (x', y', err') := Next(ln, x, y, err);
      var rest := PathFrom(ln, x', y', err');
      PathFromCloser(ln, x', y', err');
      assert Remaining(ln, rest[0]) < Remaining(ln, p[0]);
      forall i, j | 0 <= i < j < |p|
        ensures Remaining(ln, p[j]) < Remaining(ln, p[i])
      {
        assert p[j] == rest[j - 1];
        if i > 0 {
          assert p[i] == rest[i - 1];
        } else if j > 1 {
          assert Remaining(ln, rest[j - 1]) < Remaining(ln, rest[0]);
        }
      }
    }
  }

  /** The loop never plots a pixel twice. */
  lemma PathFromDistinct(ln: Line, x: int, y: int, err: int)
    requires Moving(ln, x, y)
    ensures forall i, j :: 0 <= i < j < |PathFrom(ln, x, y, err)| ==> PathFrom(ln, x, y, err)[i] != PathFrom(ln, x, y, err)[j]
  {
    PathFromCloser(ln, x, y, err);
  }

  /** The pixels of a whole line: 8-connected, inside the box of the endpoints, each plotted once. */
  lemma PathShape(x0: int, y0: int, x1: int, y1: int)
    ensures forall i :: 0 <= i < |Path(x0, y0, x1, y1)| - 1 ==>
      Adjacent(Path(x0, y0, x1, y1)[i], Path(x0, y0, x1, y1)[i + 1])
    ensures forall i :: 0 <= i < |Path(x0, y0, x1, y1)| ==>
      Between(x0, Path(x0, y0, x1, y1)[i].0, x1) && Between(y0, Path(x0, y0, x1, y1)[i].1, y1)
    ensures forall i, j :: 0 <= i < j < |Path(x0, y0, x1, y1)| ==> Path(x0, y0, x1, y1)[i] != Path(x0, y0, x1, y1)[j]
  {
    var ln := Setup(x0, y0, x1, y1);
    PathFromConnected(ln, x0, y0, ln.dx + ln.dy);
    PathFromInBox(ln, x0, y0, ln.dx + ln.dy);
    PathFromDistinct(ln, x0, y0, ln.dx + ln.dy);
  }

  // ---------------------------------------------------------------- frame buffer

  /** Slot `ch` (0 .. 3 for r, g, b, a) of pixel (x, y) in an image `w` pixels wide. */
  function Idx(w: int, x: int, y: int, ch: int): int {
    4 * (y * w + x) + ch
  }

  /** (x, y) is a pixel of a `w` x `h` image. */
  predicate InImage(w: int, h: int, p: (int, int)) {
    0 <= p.0 < w && 0 <= p.1 < h
  }

  /** The pixel that slot `k` belongs to. */
  function PixelOf(w: int, k: int): (int, int)
    requires w > 0
  {
    ((k / 4) % w, (k / 4) / w)
  }

  /** The value a plotted pixel gets in slot `ch`: the tree colour, and alpha 1. */
  function Channel(c: Rgb, ch: int): real {
    if ch == 0 then c.r else if ch == 1 then c.g else if ch == 2 then c.b else 1.0
  }

  /** Every slot of every pixel lies inside the 4 * w * h samples. */
  lemma IdxInRange(w: int, h: int, x: int, y: int, ch: int)
    requires InImage(w, h, (x, y)) && 0 <= ch < 4
    ensures 0 <= Idx(w, x, y, ch) < 4 * w * h
  {
    assert y * w <= (h - 1) * w by {
      assert (h - 1 - y) * w >= 0;
      assert (h - 1) * w - y * w == (h - 1 - y) * w;
    }
    assert (h - 1) * w + w == h * w;
    assert 4 * (h * w) == 4 * w * h;
  }

  /** Slot `ch` of pixel (x, y) belongs to that pixel, as channel `ch`. */
  lemma IdxPixel(w: int, x: int, y: int, ch: int)
    requires w > 0 && 0 <= x < w && 0 <= y && 0 <= ch < 4
    ensures PixelOf(w, Idx(w, x, y, ch)) == (x, y) && Idx(w, x, y, ch) % 4 == ch
  {
    var n := y * w + x;
    assert Idx(w, x, y, ch) / 4 == n;
    DivModUnique(n, w, y, x);
  }

  /** Quotient and remainder are unique. */
  lemma DivModUnique(n: int, w: int, q: int, r: int)
    requires w > 0 && 0 <= r < w && n == q * w + r
    ensures n / w == q && n % w == r
  {
    var t := q - n / w;
    assert t * w == n % w - r;
  }

  /** Every slot is slot `k % 4` of the pixel `PixelOf(w, k)`. */
  lemma SlotOfPixel(w: int, k: int)
    requires w > 0
    ensures Idx(w, PixelOf(w, k).0, PixelOf(w, k).1, k % 4) == k
  {
    var n := k / 4;
    assert n == (n / w) * w + n % w;
  }

  /** Pixel `p` lies in the first `n` samples of an image `w` pixels wide. */
  predicate Fits(w: int, n: int, p: (int, int)) {
    0 <= p.0 < w && 0 <= p.1 && Idx(w, p.0, p.1, 3) < n
  }

  /** A pixel of a `w` x `h` image fits its 4 * w * h samples. */
  lemma InImageFits(w: int, h: int, p: (int, int))
    requires InImage(w, h, p)
    ensures Fits(w, 4 * w * h, p)
  {
    IdxInRange(w, h, p.0, p.1, 3);
  }

  /** Plotting one pixel: its four slots become (r, g, b, 1); imgPtr is 4 * (y * width + x). */
  function Paint(d: seq<real>, w: int, p: (int, int), c: Rgb): (r: seq<real>)
    requires Fits(w, |d|, p)
    ensures |r| == |d|
  {
    var k := Idx(w, p.0, p.1, 0);
    d[k := c.r][k + 1 := c.g][k + 2 := c.b][k + 3 := 1.0]
  }

  /** Plotting a sequence of pixels, first to last. */
  function PaintPath(d: seq<real>, w: int, path: seq<(int, int)>, c: Rgb): (r: seq<real>)
    requires forall i :: 0 <= i < |path| ==> Fits(w, |d|, path[i])
    ensures |r| == |d|
    decreases path
  {
    if path == [] then d
    else PaintPath(Paint(d, w, path[0], c), w, path[1..], c)
  }

  /** Plotting one pixel changes exactly its own four slots, to the colour and alpha 1. */
  lemma PaintAt(d: seq<real>, w: int, p: (int, int), c: Rgb, k: int)
    requires Fits(w, |d|, p) && 0 <= k < |d|
    ensures Paint(d, w, p, c)[k] == if PixelOf(w, k) == p then Channel(c, k % 4) else d[k]
  {
    var base := Idx(w, p.0, p.1, 0);
    if base <= k < base + 4 {
      IdxPixel(w, p.0, p.1, k - base);
      assert Idx(w, p.0, p.1, k - base) == k;
    } else {
      SlotOfPixel(w, k);
    }
  }

  /**
   * After plotting a path, a slot of a pixel on the path holds the colour
   * (alpha 1 in the fourth slot); every slot of every other pixel is as before.
   */
  lemma {:induction false} PaintPathAt(d: seq<real>, w: int, path: seq<(int, int)>, c: Rgb, k: int)
    requires w > 0
    requires forall i :: 0 <= i < |path| ==> Fits(w, |d|, path[i])
    requires 0 <= k < |d|
    ensures PaintPath(d, w, path, c)[k] == if PixelOf(w, k) in path then Channel(c, k % 4) else d[k]
    decreases path
  {
    if path != [] {
      var d' := Paint(d, w, path[0], c);
      PaintPathAt(d', w, path[1..], c, k);
      PaintAt(d, w, path[0], c, k);
      assert path == [path[0]] + path[1..];
    }
  }

  /** Every pixel of a line between two on-screen points fits the image. */
  lemma PathFits(w: int, h: int, x0: int, y0: int, x1: int, y1: int)
    requires InImage(w, h, (x0, y0)) && InImage(w, h, (x1, y1))
    ensures forall i :: 0 <= i < |Path(x0, y0, x1, y1)| ==>
      InImage(w, h, Path(x0, y0, x1, y1)[i]) && Fits(w, 4 * w * h, Path(x0, y0, x1, y1)[i])
  {
    var p := Path(x0, y0, x1, y1);
    PathShape(x0, y0, x1, y1);
    forall i | 0 <= i < |p|
      ensures InImage(w, h, p[i]) && Fits(w, 4 * w * h, p[i])
    {
      InImageFits(w, h, p[i]);
    }
  }

  /**
   * The pixels drawLine plots for scaled endpoints (px0, py0) and (px1, py1):
   * each coordinate shifted down by one and clamped to the image, then the
   * Bresenham walk between the clamped points.
   */
  function LinePixels(w: int, h: int, px0: int, py0: int, px1: int, py1: int): (p: seq<(int, int)>)
    requires w > 0 && h > 0
    ensures |p| >= 1
    ensures p[0] == (ScreenCoord(px0, w), ScreenCoord(py0, h))
    ensures p[|p| - 1] == (ScreenCoord(px1, w), ScreenCoord(py1, h))
    ensures forall i :: 0 <= i < |p| ==> InImage(w, h, p[i]) && Fits(w, 4 * w * h, p[i])
  {
    var x0, y0 := ScreenCoord(px0, w), ScreenCoord(py0, h);
    var x1, y1 := ScreenCoord(px1, w), ScreenCoord(py1, h);
    PathFits(w, h, x0, y0, x1, y1);
    PathEnds(x0, y0, x1, y1);
    Path(x0, y0, x1, y1)
  }

  /** drawLine plots each pixel of its line once. */
  lemma LinePixelsDistinct(w: int, h: int, px0: int, py0: int, px1: int, py1: int)
    requires w > 0 && h > 0
    ensures forall i, j :: 0 <= i < j < |LinePixels(w, h, px0, py0, px1, py1)| ==>
      LinePixels(w, h, px0, py0, px1, py1)[i] != LinePixels(w, h, px0, py0, px1, py1)[j]
  {
    PathShape(ScreenCoord(px0, w), ScreenCoord(py0, h), ScreenCoord(px1, w), ScreenCoord(py1, h));
  }
}
