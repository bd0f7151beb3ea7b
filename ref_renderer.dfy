/**
 * refRenderer.cpp: the sequential renderer. It owns an RGBA float image,
 * draws each loaded tree by walking its instructions with a turtle and
 * plotting every F as a Bresenham line, and clears the image to white.
 */
module RefRendering {
  import opened Colors
  import opened Rewriting
  import opened Turtle
  import opened Raster
  import opened LSystems

  /** The image the renderer draws into: `width` x `height` pixels, four floats (r, g, b, a) each, row by row. */
  class Image {
    const width: int
    const height: int
    const data: array<real>

    ghost predicate Valid()
      reads this
    {
      width >= 0 && height >= 0 && data.Length == 4 * width * height
    }

    constructor (width: int, height: int)
      requires width >= 0 && height >= 0
      ensures Valid() && this.width == width && this.height == height
      ensures fresh(data)
    {
      this.width := width;
      this.height := height;
      data := new real[4 * width * height];
    }

    /** Sets every pixel to (r, g, b, a). */
    method Clear(r: real, g: real, b: real, a: real)
      modifies data
      ensures forall k :: 0 <= k < data.Length ==> data[k] == Sample(r, g, b, a, k % 4)
    {
      for k := 0 to data.Length
        invariant forall j :: 0 <= j < k ==> data[j] == Sample(r, g, b, a, j % 4)
      {
        data[k] := Sample(r, g, b, a, k % 4);
      }
    }

    /** Writes the colour and alpha 1 into the four slots of pixel (x, y). */
    method Plot(x: int, y: int, c: Rgb)
      requires Fits(width, data.Length, (x, y))
      modifies data
      ensures data[..] == Paint(old(data[..]), width, (x, y), c)
    {
      var k := 4 * (y * width + x);
      data[k] := c.r;
      data[k + 1] := c.g;
      data[k + 2] := c.b;
      data[k + 3] := 1.0;
    }
  }

  /** Slot `ch` of a pixel cleared to (r, g, b, a). */
  function Sample(r: real, g: real, b: real, a: real, ch: int): real {
    if ch == 0 then r else if ch == 1 then g else if ch == 2 then b else a
  }

  /** The pixels drawLine plots for a segment drawTree hands it: both endpoints scaled to the image and truncated. */
  function SegmentPixels(w: int, h: int, s: Segment): (p: seq<(int, int)>)
    requires w > 0 && h > 0
    ensures forall i :: 0 <= i < |p| ==> InImage(w, h, p[i]) && Fits(w, 4 * w * h, p[i])
  {
    LinePixels(w, h, ToPixel(s.x0, w), ToPixel(s.y0, h), ToPixel(s.x1, w), ToPixel(s.y1, h))
  }

  /** The image after drawing `segs` in order, each as its line of pixels in colour `c`. */
  function DrawSegments(d: seq<real>, w: int, h: int, segs: seq<Segment>, c: Rgb): (r: seq<real>)
    requires w > 0 && h > 0 && |d| == 4 * w * h
    ensures |r| == |d|
  {
    if segs == [] then d
    else PaintPath(DrawSegments(d, w, h, segs[..|segs| - 1], c), w, SegmentPixels(w, h, segs[|segs| - 1]), c)
  }

  /** The segments drawTree draws for `ls` holding `instructions`: the stackless walk from the tree's own pose. */
  function TreeSegments(ls: LSystem, instructions: string, cos: real -> real, sin: real -> real): seq<Segment> {
    FlatRun(Pen(ls.length, ls.rotation, cos, sin), Start(ls.x, ls.y, ls.angle), instructions).segments
  }

  /** The instructions each tree of `ts` holds. */
  ghost function Instructions(ts: seq<LSystem>): (r: seq<string>)
    reads ts
    ensures |r| == |ts| && forall j :: 0 <= j < |ts| ==> r[j] == ts[j].instructions
  {
    seq(|ts|, j requires 0 <= j < |ts| reads ts => ts[j].instructions)
  }

  /** The image after drawing the trees `ts`, holding `progs`, in order, each in its own colour. */
  function DrawForest(d: seq<real>, w: int, h: int, ts: seq<LSystem>, progs: seq<string>, cos: real -> real, sin: real -> real): (r: seq<real>)
    requires w > 0 && h > 0 && |d| == 4 * w * h && |progs| == |ts|
    ensures |r| == |d|
  {
    if ts == [] then d
    else
      var n := |ts| - 1;
      DrawSegments(DrawForest(d, w, h, ts[..n], progs[..n], cos, sin), w, h, TreeSegments(ts[n], progs[n], cos, sin), ts[n].color)
  }

  /** Drawing the first i + 1 trees is drawing the first i, then tree i. */
  lemma DrawForestPrefix(d: seq<real>, w: int, h: int, ts: seq<LSystem>, progs: seq<string>, i: nat, cos: real -> real, sin: real -> real)
    requires w > 0 && h > 0 && |d| == 4 * w * h && |progs| == |ts| && i < |ts|
    ensures DrawForest(d, w, h, ts[..i + 1], progs[..i + 1], cos, sin) ==
      DrawSegments(DrawForest(d, w, h, ts[..i], progs[..i], cos, sin), w, h, TreeSegments(ts[i], progs[i], cos, sin), ts[i].color)
  {
    assert ts[..i + 1][..i] == ts[..i];
    assert progs[..i + 1][..i] == progs[..i];
  }

  /** Some line of `segs` passes through pixel `p`. */
  predicate Covers(w: int, h: int, segs: seq<Segment>, p: (int, int))
    requires w > 0 && h > 0
  {
    segs != [] && (Covers(w, h, segs[..|segs| - 1], p) || p in SegmentPixels(w, h, segs[|segs| - 1]))
  }

  /** When `Covers` holds, one of the lines of `segs` passes through `p`. */
  lemma {:induction false} CoversWitness(w: int, h: int, segs: seq<Segment>, p: (int, int)) returns (j: int)
    requires w > 0 && h > 0 && Covers(w, h, segs, p)
    ensures 0 <= j < |segs| && p in SegmentPixels(w, h, segs[j])
  {
    var n := |segs| - 1;
    if p in SegmentPixels(w, h, segs[n]) {
      j := n;
    } else {
      j := CoversWitness(w, h, segs[..n], p);
      assert segs[..n][j] == segs[j];
    }
  }

  /** Conversely, a line of `segs` through `p` makes `Covers` hold. */
  lemma {:induction false} CoversFrom(w: int, h: int, segs: seq<Segment>, p: (int, int), j: int)
    requires w > 0 && h > 0 && 0 <= j < |segs| && p in SegmentPixels(w, h, segs[j])
    ensures Covers(w, h, segs, p)
  {
    var n := |segs| - 1;
    if j < n {
      assert segs[..n][j] == segs[j];
      CoversFrom(w, h, segs[..n], p, j);
    }
  }

  /**
   * A sample of the image after drawing `segs`: the colour's channel (alpha
   * 1) where one of the lines passes through its pixel, the old sample
   * everywhere else.
   */
  lemma {:induction false} DrawSegmentsAt(d: seq<real>, w: int, h: int, segs: seq<Segment>, c: Rgb, k: int)
    requires w > 0 && h > 0 && |d| == 4 * w * h && 0 <= k < |d|
    ensures DrawSegments(d, w, h, segs, c)[k] == if Covers(w, h, segs, PixelOf(w, k)) then Channel(c, k % 4) else d[k]
  {
    if segs != [] {
      var n := |segs| - 1;
      var prev := DrawSegments(d, w, h, segs[..n], c);
      assert DrawSegments(d, w, h, segs, c) == PaintPath(prev, w, SegmentPixels(w, h, segs[n]), c);
      DrawSegmentsAt(d, w, h, segs[..n], c, k);
      PaintPathAt(prev, w, SegmentPixels(w, h, segs[n]), c, k);
    }
  }

  /** Pixel `p` is on some line of tree `i` of `ts` holding `progs[i]`. */
  predicate TreeCovers(w: int, h: int, ts: seq<LSystem>, progs: seq<string>, i: int, cos: real -> real, sin: real -> real, p: (int, int))
    requires w > 0 && h > 0 && |progs| == |ts| && 0 <= i < |ts|
  {
    Covers(w, h, TreeSegments(ts[i], progs[i], cos, sin), p)
  }

  /** For each tree of `ts` holding `progs`, whether one of its lines passes through `p`. */
  function Hits(w: int, h: int, ts: seq<LSystem>, progs: seq<string>, cos: real -> real, sin: real -> real, p: (int, int)): (r: seq<bool>)
    requires w > 0 && h > 0 && |progs| == |ts|
    ensures |r| == |ts|
  {
    if ts == [] then []
    else
      var n := |ts| - 1;
      Hits(w, h, ts[..n], progs[..n], cos, sin, p) + [Covers(w, h, TreeSegments(ts[n], progs[n], cos, sin), p)]
  }

  /** Entry `i` of `Hits` says whether tree `i` passes through `p`. */
  lemma {:induction false} HitsAt(w: int, h: int, ts: seq<LSystem>, progs: seq<string>, cos: real -> real, sin: real -> real, p: (int, int), i: int)
    requires w > 0 && h > 0 && |progs| == |ts| && 0 <= i < |ts|
    ensures Hits(w, h, ts, progs, cos, sin, p)[i] == TreeCovers(w, h, ts, progs, i, cos, sin, p)
  {
    var n := |ts| - 1;
    if i < n {
      HitsAt(w, h, ts[..n], progs[..n], cos, sin, p, i);
      assert ts[..n][i] == ts[i] && progs[..n][i] == progs[i];
    }
  }

  /** The index of the last `true` in `bs`, or -1 when there is none. */
  function LastTrue(bs: seq<bool>): (i: int)
    ensures -1 <= i < |bs|
  {
    if bs == [] then -1
    else if bs[|bs| - 1] then |bs| - 1
    else LastTrue(bs[..|bs| - 1])
  }

  /** `LastTrue` finds the last `true`: it is one, no later entry is, and -1 means no entry is. */
  lemma {:induction false} LastTrueIsLast(bs: seq<bool>)
    ensures LastTrue(bs) >= 0 ==> bs[LastTrue(bs)]
    ensures forall j :: LastTrue(bs) < j < |bs| ==> !bs[j]
  {
    if bs != [] && !bs[|bs| - 1] {
      var front := bs[..|bs| - 1];
      LastTrueIsLast(front);
      assert forall j :: 0 <= j < |front| ==> front[j] == bs[j];
    }
  }

  /**
   * A sample of the image after drawing a forest: untouched where no tree
   * passes through its pixel, and otherwise the colour of the last tree that
   * does, since later trees are drawn over earlier ones.
   */
  lemma {:induction false} DrawForestAt(d: seq<real>, w: int, h: int, ts: seq<LSystem>, progs: seq<string>,
                                        cos: real -> real, sin: real -> real, k: int)
    requires w > 0 && h > 0 && |d| == 4 * w * h && |progs| == |ts| && 0 <= k < |d|
    ensures var i := LastTrue(Hits(w, h, ts, progs, cos, sin, PixelOf(w, k)));
      DrawForest(d, w, h, ts, progs, cos, sin)[k] == if i < 0 then d[k] else Channel(ts[i].color, k % 4)
  {
    if ts != [] {
      var n := |ts| - 1;
      var ts', progs' := ts[..n], progs[..n];
      var prev := DrawForest(d, w, h, ts', progs', cos, sin);
      assert DrawForest(d, w, h, ts, progs, cos, sin) == DrawSegments(prev, w, h, TreeSegments(ts[n], progs[n], cos, sin), ts[n].color);
      DrawForestAt(d, w, h, ts', progs', cos, sin, k);
      DrawSegmentsAt(prev, w, h, TreeSegments(ts[n], progs[n], cos, sin), ts[n].color, k);
      var hits := Hits(w, h, ts, progs, cos, sin, PixelOf(w, k));
      assert hits[..n] == Hits(w, h, ts', progs', cos, sin, PixelOf(w, k));
      var i := LastTrue(hits[..n]);
      if i >= 0 {
        assert ts'[i] == ts[i];
      }
    }
  }

  /** drawTree draws one line per F of the instructions. */
  lemma TreeLineCount(ls: LSystem, instructions: string, cos: real -> real, sin: real -> real)
    ensures |TreeSegments(ls, instructions, cos, sin)| == Occurrences(instructions, 'F')
  {
    FlatRunCounts(Pen(ls.length, ls.rotation, cos, sin), Start(ls.x, ls.y, ls.angle), instructions);
  }

  /** On instructions without brackets drawTree draws exactly the lines getLines computes. */
  lemma TreeMatchesLines(ls: LSystem, instructions: string, cos: real -> real, sin: real -> real)
    requires Occurrences(instructions, '[') == 0 && Occurrences(instructions, ']') == 0
    ensures Run(Pen(ls.length, ls.rotation, cos, sin), Start(ls.x, ls.y, ls.angle), instructions).Some?
    ensures Run(Pen(ls.length, ls.rotation, cos, sin), Start(ls.x, ls.y, ls.angle), instructions).value.segments ==
      TreeSegments(ls, instructions, cos, sin)
  {
    FlatRunAgrees(Pen(ls.length, ls.rotation, cos, sin), Start(ls.x, ls.y, ls.angle), instructions);
  }

  /** The loop of drawLine stands at (x, y) with error `err` and plotting the rest of its walk onto `d` gives `target`. */
  ghost predicate Drawing(ln: Line, w: int, h: int, x: int, y: int, err: int, d: seq<real>, c: Rgb, target: seq<real>) {
    && Moving(ln, x, y) && InImage(w, h, (x, y)) && InImage(w, h, (ln.x1, ln.y1))
    && (forall i :: 0 <= i < |PathFrom(ln, x, y, err)| ==> Fits(w, |d|, PathFrom(ln, x, y, err)[i]))
    && PaintPath(d, w, PathFrom(ln, x, y, err), c) == target
  }

  /** The loop of drawLine stops after plotting (x, y): the end point is reached or a break fires. */
  predicate Stops(ln: Line, x: int, y: int, err: int) {
    (x == ln.x1 && y == ln.y1) || (2 * err >= ln.dy && x == ln.x1) || (2 * err <= ln.dx && y == ln.y1)
  }

  /**
   * One turn of the loop of drawLine: the current pixel fits the image;
   * after plotting it, a loop that stops has drawn the whole line, and one
   * that goes on stands closer to the end point with the rest of the walk
   * still to plot.
   */
  lemma DrawingStep(ln: Line, w: int, h: int, x: int, y: int, err: int, d: seq<real>, c: Rgb, target: seq<real>,
                    x': int, y': int, err': int)
    requires Drawing(ln, w, h, x, y, err, d, c, target)
    requires (x', y', err') == Next(ln, x, y, err)
    ensures Fits(w, |d|, (x, y))
    ensures Stops(ln, x, y, err) ==> Paint(d, w, (x, y), c) == target
    ensures !Stops(ln, x, y, err) ==>
      && Drawing(ln, w, h, x', y', err', Paint(d, w, (x, y), c), c, target)
      && Dist(x', ln.x1) + Dist(y', ln.y1) < Dist(x, ln.x1) + Dist(y, ln.y1)
  {
    var p := PathFrom(ln, x, y, err);
    assert Fits(w, |d|, p[0]);
    if Stops(ln, x, y, err) {
      assert p == [(x, y)] && p[1..] == [];
      assert PaintPath(d, w, p, c) == PaintPath(Paint(d, w, (x, y), c), w, [], c);
    } else {
      assert |p| > 1;
      PathFromUnfold(ln, x, y, err);
      var rest := PathFrom(ln, x', y', err');
      assert p[1..] == rest;
      forall i | 0 <= i < |rest|
        ensures Fits(w, |d|, rest[i])
      {
        assert rest[i] == p[i + 1];
      }
    }
  }

  /** The loop of drawLine starts at the clamped start point with error Δx + Δy, with the whole line still to plot. */
  lemma DrawingStart(w: int, h: int, px0: int, py0: int, px1: int, py1: int, d: seq<real>, c: Rgb)
    requires w > 0 && h > 0 && |d| == 4 * w * h
    ensures var x0, y0, x1, y1 := ScreenCoord(px0, w), ScreenCoord(py0, h), ScreenCoord(px1, w), ScreenCoord(py1, h);
      var ln := Setup(x0, y0, x1, y1);
      Drawing(ln, w, h, x0, y0, ln.dx + ln.dy, d, c, PaintPath(d, w, LinePixels(w, h, px0, py0, px1, py1), c))
  {
  }

  class RefRenderer {
    var image: Image?
    var numberOfTrees: int
    var trees: array?<LSystem>

    /** A renderer with no image and no trees. */
    constructor ()
      ensures image == null && numberOfTrees == 0 && trees == null
    {
      image := null;
      numberOfTrees := 0;
      trees := null;
    }

    method GetImage() returns (r: Image?)
      ensures r == image
    {
      r := image;
    }

    /** Replaces the image by a new one of the given size. */
    method AllocOutputImage(width: int, height: int)
      requires width >= 0 && height >= 0
      modifies this`image
      ensures image != null && fresh(image) && fresh(image.data) && image.Valid()
      ensures image.width == width && image.height == height
    {
      image := new Image(width, height);
    }

    /** Clears the image to opaque white. */
    method ClearImage()
      requires image != null
      modifies image.data
      ensures forall k :: 0 <= k < image.data.Length ==> image.data[k] == 1.0
    {
      image.Clear(1.0, 1.0, 1.0, 1.0);
    }

    /** Remembers the trees to render; nothing is copied. */
    method LoadTrees(trees: array?<LSystem>, numberOfTrees: int)
      modifies this`trees, this`numberOfTrees
      ensures this.trees == trees && this.numberOfTrees == numberOfTrees
    {
      this.trees := trees;
      this.numberOfTrees := numberOfTrees;
    }

    /**
     * Draws the line between the scaled points (px0, py0) and (px1, py1) in
     * the colour of `ls`: the endpoints are clamped onto the image, then
     * Bresenham's loop plots pixel after pixel up to the end point.
     */
    method DrawLine(px0: int, py0: int, px1: int, py1: int, ls: LSystem)
      requires image != null && image.Valid() && image.width > 0 && image.height > 0
      modifies image.data
      ensures image.data[..] ==
        PaintPath(old(image.data[..]), image.width, LinePixels(image.width, image.height, px0, py0, px1, py1), ls.color)
    {
      var img := image;
      var data := img.data;
      var w, h := img.width, img.height;
      var x1 := ScreenCoord(px1, w);
      var y1 := ScreenCoord(py1, h);
      var x0 := ScreenCoord(px0, w);
      var y0 := ScreenCoord(py0, h);
      var dx := Abs(x1 - x0);
      var sx := if x0 < x1 then 1 else -1;
      var dy := 0 - Abs(y1 - y0);
      var sy := if y0 < y1 then 1 else -1;
      var error := dx + dy;
      ghost var ln := Setup(x0, y0, x1, y1);
      ghost var target := PaintPath(old(image.data[..]), w, LinePixels(w, h, px0, py0, px1, py1), ls.color);
      DrawingStart(w, h, px0, py0, px1, py1, data[..], ls.color);
      while true
        invariant ln == Line(x1, y1, dx, dy, sx, sy)
        invariant Drawing(ln, w, h, x0, y0, error, data[..], ls.color, target)
        decreases Dist(x0, x1) + Dist(y0, y1)
      {
        ghost var (nx, ny, nerr) := Next(ln, x0, y0, error);
        DrawingStep(ln, w, h, x0, y0, error, data[..], ls.color, target, nx, ny, nerr);
        img.Plot(x0, y0, ls.color);
        if x0 == x1 && y0 == y1 {
          assert data[..] == target;
          break;
        }
        var e2 := 2 * error;
        if e2 >= dy {
          if x0 == x1 {
            assert data[..] == target;
            break;
          }
          error := error + dy;
          x0 := x0 + sx;
        }
        if e2 <= dx {
          if y0 == y1 {
            assert data[..] == target;
            break;
          }
          error := error + dx;
          y0 := y0 + sy;
        }
        assert x0 == nx && y0 == ny && error == nerr;
      }
    }

    /**
     * Draws one tree: the turtle starts at the tree's pose, F draws a line
     * one step ahead and moves there, + and - turn, and [ and ] do nothing.
     */
    method DrawTree(ls: LSystem, cos: real -> real, sin: real -> real)
      requires image != null && image.Valid() && image.width > 0 && image.height > 0
      modifies image.data
      ensures image.data[..] == DrawSegments(old(image.data[..]), image.width, image.height, TreeSegments(ls, ls.instructions, cos, sin), ls.color)
    {
      var angle, x, y := ls.angle, ls.x, ls.y;
      ghost var pen := Pen(ls.length, ls.rotation, cos, sin);
      ghost var w0 := Start(ls.x, ls.y, ls.angle);
      ghost var walk := w0;
      for i := 0 to |ls.instructions|
        invariant walk == FlatRun(pen, w0, ls.instructions[..i])
        invariant walk.pose == Pose(x, y, angle)
        invariant image.data[..] == DrawSegments(old(image.data[..]), image.width, image.height, walk.segments, ls.color)
      {
        var c := ls.instructions[i];
        assert ls.instructions[..i + 1][..i] == ls.instructions[..i];
        if c == 'F' {
          var ahead := Advance(Pen(ls.length, ls.rotation, cos, sin), Pose(x, y, angle));
          var newX, newY := ahead.x, ahead.y;
          DrawLine(ToPixel(x, image.width), ToPixel(y, image.height), ToPixel(newX, image.width), ToPixel(newY, image.height), ls);
          x, y := newX, newY;
          ghost var segs := walk.segments + [Segment(walk.pose.x, walk.pose.y, newX, newY)];
          assert segs[..|segs| - 1] == walk.segments;
          walk := walk.(pose := ahead, segments := segs);
        } else if c == '+' {
          angle := angle + ls.rotation;
          walk := walk.(pose := walk.pose.(angle := angle));
        } else if c == '-' {
          angle := angle - ls.rotation;
          walk := walk.(pose := walk.pose.(angle := angle));
        }
      }
      assert ls.instructions[..|ls.instructions|] == ls.instructions;
    }

    /** The trees render draws: the first `numberOfTrees` of the loaded array, none when that count is not positive. */
    ghost function Loaded(): seq<LSystem>
      requires numberOfTrees > 0 ==> trees != null && numberOfTrees <= trees.Length
      reads this, trees
    {
      if numberOfTrees <= 0 then [] else trees[..numberOfTrees]
    }

    /** Draws the loaded trees one after another, in index order. */
    method Render(cos: real -> real, sin: real -> real)
      requires image != null && image.Valid() && image.width > 0 && image.height > 0
      requires numberOfTrees > 0 ==> trees != null && numberOfTrees <= trees.Length
      modifies image.data
      ensures image.data[..] == DrawForest(old(image.data[..]), image.width, image.height, Loaded(), Instructions(Loaded()), cos, sin)
    {
      ghost var forest := Loaded();
      ghost var progs := Instructions(forest);
      ghost var start := image.data[..];
      var treeIndex := 0;
      while treeIndex < numberOfTrees
        invariant 0 <= treeIndex <= |forest|
        invariant forall j :: 0 <= j < |forest| ==> forest[j] == trees[j]
        invariant forall j :: 0 <= j < |forest| ==> forest[j].instructions == progs[j]
        invariant image.data[..] == DrawForest(start, image.width, image.height, forest[..treeIndex], progs[..treeIndex], cos, sin)
      {
        DrawTree(trees[treeIndex], cos, sin);
        DrawForestPrefix(start, image.width, image.height, forest, progs, treeIndex, cos, sin);
        treeIndex := treeIndex + 1;
      }
      assert forest[..treeIndex] == forest && progs[..treeIndex] == progs;
    }
  }
}
