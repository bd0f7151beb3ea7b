/**
 * lsystem.cpp: the L-system class that expands its grammar, keeps the result
 * as its `instructions`, counts the F in them, and interprets them with a
 * turtle that saves and restores its pose on three stacks (x, y, angle),
 * filling `lines` with four coordinates per drawn segment. Also the Koch
 * curve and fern presets and the fern's closed-form line count.
 */
module LSystems {
  import opened Rewriting
  import opened Presets
  import opened Turtle
  import opened Colors

  class LSystem {
    const axiom: string
    const rules: map<char, string>
    const x: real
    const y: real
    const angle: real
    const length: real
    const color: Rgb
    const rotation: real
    var instructions: string
    var lines: seq<real>

    /** The default constructor: no grammar, no instructions, no lines yet (the pose is left unspecified). */
    constructor Blank()
      ensures axiom == [] && rules == map[]
      ensures instructions == [] && lines == []
    {
      axiom := [];
      rules := map[];
      x, y, angle, length, rotation := 0.0, 0.0, 0.0, 0.0, 0.0;
      color := Rgb(0.0, 0.0, 0.0);
      instructions := [];
      lines := [];
    }

    /** Stores the grammar, the turn angle and the starting pose, step length and colour. */
    constructor (axiom: string, rules: map<char, string>, rotation: real,
                 x: real, y: real, angle: real, length: real, color: Rgb)
      ensures this.axiom == axiom && this.rules == rules && this.rotation == rotation
      ensures this.x == x && this.y == y && this.angle == angle
      ensures this.length == length && this.color == color
      ensures instructions == [] && lines == []
    {
      this.axiom := axiom;
      this.rules := rules;
      this.rotation := rotation;
      this.x := x;
      this.y := y;
      this.angle := angle;
      this.length := length;
      this.color := color;
      instructions := [];
      lines := [];
    }

    /** The Koch curve preset of this file: axiom F, rule F -> F+F-F-F+F, turn angle 90. */
    constructor KochCurve(x: real, y: real, angle: real, length: real, color: Rgb)
      ensures axiom == "F" && rules == KochRules && rotation == 90.0
      ensures this.x == x && this.y == y && this.angle == angle
      ensures this.length == length && this.color == color
      ensures instructions == [] && lines == []
    {
      axiom := "F";
      rules := KochRules;
      rotation := 90.0;
      this.x := x;
      this.y := y;
      this.angle := angle;
      this.length := length;
      this.color := color;
      instructions := [];
      lines := [];
    }

    /** The fern preset: axiom X, rules X -> F-[[X]+X]+F[+FX]-X and F -> FF, turn angle 0.436. */
    constructor Fern(x: real, y: real, angle: real, length: real, color: Rgb)
      ensures axiom == "X" && rules == FernRules && rotation == 0.436
      ensures this.x == x && this.y == y && this.angle == angle
      ensures this.length == length && this.color == color
      ensures instructions == [] && lines == []
    {
      axiom := "X";
      rules := FernRules;
      rotation := 0.436;
      this.x := x;
      this.y := y;
      this.angle := angle;
      this.length := length;
      this.color := color;
      instructions := [];
      lines := [];
    }

    /** One generation, appending each symbol's rule (or the symbol itself) in order. */
    method Update(input: string) returns (output: string)
      ensures output == Expand(MapRule(rules), input)
    {
      output := [];
      for i := 0 to |input|
        invariant output == Expand(MapRule(rules), input[..i])
      {
        var c := input[i];
        assert input[..i + 1][..i] == input[..i];
        if c in rules {
          output := output + rules[c];
        } else {
          output := output + [c];
        }
      }
      assert input[..|input|] == input;
    }

    /** Generation `d` of the axiom (the axiom itself when `d <= 0`), also kept as the instructions. */
    method Generate(d: int) returns (current: string)
      modifies this`instructions
      ensures current == Generation(MapRule(rules), axiom, if d < 0 then 0 else d)
      ensures instructions == current
    {
      current := axiom;
      var i := 0;
      while i < d
        invariant 0 <= i <= (if d < 0 then 0 else d)
        invariant current == Generation(MapRule(rules), axiom, i)
      {
        current := Update(current);
        i := i + 1;
      }
      instructions := current;
    }

    /** The number of F in the instructions; the depth argument plays no part. */
    method NumLines(d: int) returns (numLines: nat)
      ensures numLines == Occurrences(instructions, 'F')
    {
      numLines := 0;
      for i := 0 to |instructions|
        invariant numLines == Occurrences(instructions[..i], 'F')
      {
        assert instructions[..i + 1] == instructions[..i] + [instructions[i]];
        OccurrencesSnoc(instructions[..i], instructions[i], 'F');
        if instructions[i] == 'F' {
          numLines := numLines + 1;
        }
      }
      assert instructions[..|instructions|] == instructions;
    }

    /**
     * Interprets the instructions from the system's pose: one segment
     * (x, y, new_x, new_y) per F, written at slots 4l .. 4l+3 of a vector of
     * 4 * numLines reals, turns by the rotation, and [ / ] pushing and popping
     * the pose on three parallel stacks. A ] must find a saved pose: the
     * instructions may never close more brackets than they have opened.
     * The result is also kept as `lines`.
     */
    method GetLines(d: int, cos: real -> real, sin: real -> real) returns (result: seq<real>)
      requires NeverUnderflows(instructions, 0)
      modifies this`lines
      ensures Run(Pen(length, rotation, cos, sin), Start(x, y, angle), instructions).Some?
      ensures result == Flatten(Run(Pen(length, rotation, cos, sin), Start(x, y, angle), instructions).value.segments)
      ensures lines == result
    {
      var numLines := NumLines(d);
      var buffer := new real[4 * numLines];
      var curAngle, curX, curY := angle, x, y;
      var stackX, stackY, stackAngle: seq<real> := [], [], [];
      var l := 0;
      ghost var pen := Pen(length, rotation, cos, sin);
      ghost var w0 := Start(x, y, angle);
      ghost var walk := w0;
      assert instructions[..0] == [];
      for i := 0 to |instructions|
        invariant Run(pen, w0, instructions[..i]) == Some(walk)
        invariant 4 * l <= buffer.Length
        invariant Tracks(walk, curX, curY, curAngle, stackX, stackY, stackAngle, l, buffer[..4 * l])
      {
        var c := instructions[i];
        RunPrefixStep(pen, w0, instructions, i);
        ghost var next := Step(pen, walk, c).value;
        if c == 'F' {
          RoomForLine(pen, w0, instructions, i, walk);
          var ahead := Advance(Pen(length, rotation, cos, sin), Pose(curX, curY, curAngle));
          var newX, newY := ahead.x, ahead.y;
          TracksForward(pen, walk, curX, curY, curAngle, stackX, stackY, stackAngle, l, buffer[..4 * l]);
          PutLine(buffer, l, curX, curY, newX, newY);
          curX, curY := newX, newY;
          l := l + 1;
        } else if c == '+' {
          TracksTurn(pen, walk, c, curX, curY, curAngle, stackX, stackY, stackAngle, l, buffer[..4 * l]);
          curAngle := curAngle + rotation;
        } else if c == '-' {
          TracksTurn(pen, walk, c, curX, curY, curAngle, stackX, stackY, stackAngle, l, buffer[..4 * l]);
          curAngle := curAngle - rotation;
        } else if c == '[' {
          TracksPush(pen, walk, curX, curY, curAngle, stackX, stackY, stackAngle, l, buffer[..4 * l]);
          stackX := stackX + [curX];
          stackY := stackY + [curY];
          stackAngle := stackAngle + [curAngle];
        } else if c == ']' {
          TracksPop(pen, walk, curX, curY, curAngle, stackX, stackY, stackAngle, l, buffer[..4 * l]);
          var n := |stackX|;
          curX := stackX[n - 1];
          curY := stackY[n - 1];
          curAngle := stackAngle[n - 1];
          stackX := stackX[..n - 1];
          stackY := stackY[..n - 1];
          stackAngle := stackAngle[..n - 1];
        } else {
          TracksOther(pen, walk, c, curX, curY, curAngle, stackX, stackY, stackAngle, l, buffer[..4 * l]);
        }
        walk := next;
      }
      assert instructions[..|instructions|] == instructions;
      RunCounts(pen, w0, instructions);
      assert buffer[..] == buffer[..4 * l];
      lines := buffer[..];
      result := lines;
    }
  }

  /** Stores the four coordinates of line `l` at slots 4l .. 4l+3, after the lines already stored. */
  method PutLine(lines: array<real>, l: nat, x: real, y: real, newX: real, newY: real)
    requires 4 * l + 4 <= lines.Length
    modifies lines
    ensures lines[..4 * l + 4] == old(lines[..4 * l]) + [x, y, newX, newY]
    ensures lines[4 * l + 4..] == old(lines[4 * l + 4..])
  {
    lines[4 * l] := x;
    lines[4 * l + 1] := y;
    lines[4 * l + 2] := newX;
    lines[4 * l + 3] := newY;
  }

  /**
   * The local state of getLines stands for the turtle walk `w`: its pose,
   * its stack of poses (the three parallel stacks), and its segments (the
   * first 4l slots of the lines vector).
   */
  ghost predicate Tracks(w: Walk, x: real, y: real, angle: real,
                         xs: seq<real>, ys: seq<real>, angles: seq<real>, l: nat, stored: seq<real>) {
    && |xs| == |ys| == |angles|
    && w.pose == Pose(x, y, angle)
    && w.stack == Poses(xs, ys, angles)
    && l == |w.segments|
    && stored == Flatten(w.segments)
  }

  /** The three parallel stacks of getLines, read as one stack of poses (top last). */
  function Poses(xs: seq<real>, ys: seq<real>, angles: seq<real>): (r: seq<Pose>)
    requires |xs| == |ys| == |angles|
    ensures |r| == |xs|
  {
    if xs == [] then []
    else
      var n := |xs| - 1;
      Poses(xs[..n], ys[..n], angles[..n]) + [Pose(xs[n], ys[n], angles[n])]
  }

  /** Entry i of the pose stack is the i-th entry of the three parallel stacks, so their tops agree. */
  lemma {:induction false} PosesAt(xs: seq<real>, ys: seq<real>, angles: seq<real>)
    requires |xs| == |ys| == |angles|
    ensures forall i :: 0 <= i < |xs| ==> Poses(xs, ys, angles)[i] == Pose(xs[i], ys[i], angles[i])
  {
    if xs != [] {
      var n := |xs| - 1;
      PosesAt(xs[..n], ys[..n], angles[..n]);
    }
  }

  /** Before the F at position i the lines drawn so far leave room for one more among the F of the whole string. */
  lemma RoomForLine(pen: Pen, w0: Walk, s: string, i: nat, w: Walk)
    requires i < |s| && s[i] == 'F' && w0.segments == []
    requires Run(pen, w0, s[..i]) == Some(w) && Run(pen, w0, s[..i + 1]) == Step(pen, w, s[i])
    ensures |w.segments| + 1 <= Occurrences(s, 'F')
  {
    RunCounts(pen, w0, s[..i + 1]);
    OccurrencesPrefix(s, i + 1, 'F');
  }

  /** An F moves the pose one step ahead, keeps the stacks, and stores the segment after the others. */
  lemma TracksForward(pen: Pen, w: Walk, x: real, y: real, angle: real,
                      xs: seq<real>, ys: seq<real>, angles: seq<real>, l: nat, stored: seq<real>)
    requires Tracks(w, x, y, angle, xs, ys, angles, l, stored)
    ensures var q := Advance(pen, Pose(x, y, angle));
      Tracks(Step(pen, w, 'F').value, q.x, q.y, angle, xs, ys, angles, l + 1, stored + [x, y, q.x, q.y])
  {
    var q := Advance(pen, Pose(x, y, angle));
    FlattenSnoc(w.segments, Segment(x, y, q.x, q.y));
  }

  /** A + or - turns the heading by the rotation and keeps everything else. */
  lemma TracksTurn(pen: Pen, w: Walk, c: char, x: real, y: real, angle: real,
                   xs: seq<real>, ys: seq<real>, angles: seq<real>, l: nat, stored: seq<real>)
    requires Tracks(w, x, y, angle, xs, ys, angles, l, stored) && (c == '+' || c == '-')
    ensures Tracks(Step(pen, w, c).value, x, y, if c == '+' then angle + pen.rotation else angle - pen.rotation,
                   xs, ys, angles, l, stored)
  {
  }

  /** A [ pushes the pose onto all three stacks. */
  lemma TracksPush(pen: Pen, w: Walk, x: real, y: real, angle: real,
                   xs: seq<real>, ys: seq<real>, angles: seq<real>, l: nat, stored: seq<real>)
    requires Tracks(w, x, y, angle, xs, ys, angles, l, stored)
    ensures Tracks(Step(pen, w, '[').value, x, y, angle, xs + [x], ys + [y], angles + [angle], l, stored)
  {
    assert (xs + [x])[..|xs|] == xs;
    assert (ys + [y])[..|ys|] == ys;
    assert (angles + [angle])[..|angles|] == angles;
  }

  /** A ] that succeeds finds the stacks non-empty and pops the top of all three into the pose. */
  lemma TracksPop(pen: Pen, w: Walk, x: real, y: real, angle: real,
                  xs: seq<real>, ys: seq<real>, angles: seq<real>, l: nat, stored: seq<real>)
    requires Tracks(w, x, y, angle, xs, ys, angles, l, stored) && Step(pen, w, ']').Some?
    ensures |xs| > 0
    ensures var n := |xs| - 1;
      Tracks(Step(pen, w, ']').value, xs[n], ys[n], angles[n], xs[..n], ys[..n], angles[..n], l, stored)
  {
  }

  /** Any other symbol changes nothing. */
  lemma TracksOther(pen: Pen, w: Walk, c: char, x: real, y: real, angle: real,
                    xs: seq<real>, ys: seq<real>, angles: seq<real>, l: nat, stored: seq<real>)
    requires Tracks(w, x, y, angle, xs, ys, angles, l, stored) && c !in "F+-[]"
    ensures Tracks(Step(pen, w, c).value, x, y, angle, xs, ys, angles, l, stored)
  {
  }

  /**
   * The fern's line count for depth `d` in closed form, 3 * 2^(d-1) * (2^d - 1),
   * which is the number of F in fern generation `d`. The shifts are defined
   * for d >= 1, and the 32-bit product stays in range up to d == 15.
   */
  function FernNumLines(d: int): (n: nat)
    requires 1 <= d <= 15
    ensures n == Occurrences(Generation(MapRule(FernRules), "X", d), 'F')
  {
    FernRulesShaped();
    FernF(MapRule(FernRules), d);
    3 * Pow(2, d - 1) * (Pow(2, d) - 1)
  }
}
