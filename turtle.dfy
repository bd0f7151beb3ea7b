/**
 * The turtle that turns an instruction string into line segments
 * (lsystem.cpp, LSystem::getLines): F draws one step ahead, + and - turn by
 * the rotation, [ saves the pose on a stack and ] restores the most recently
 * saved one. Any other symbol is ignored.
 *
 * Floats are modelled as reals; cos and sin are not interpreted and arrive
 * as parameters inside the `Pen`.
 */
module Turtle {
  import opened Rewriting
  import opened Presets

  datatype Option<T> = None | Some(value: T)

  /** Position and heading of the turtle. */
  datatype Pose = Pose(x: real, y: real, angle: real)

  /** A drawn line from (x0, y0) to (x1, y1). */
  datatype Segment = Segment(x0: real, y0: real, x1: real, y1: real) {
    function From(): (real, real) { (x0, y0) }
    function To(): (real, real) { (x1, y1) }
  }

  /** Step length, turn angle, and the trigonometry the step uses. */
  datatype Pen = Pen(length: real, rotation: real, cos: real -> real, sin: real -> real)

  /** Interpreter state: the pose, the saved poses (top of stack last) and the segments drawn so far. */
  datatype Walk = Walk(pose: Pose, stack: seq<Pose>, segments: seq<Segment>)

  /** The pose one step ahead along the current heading. */
  function Advance(pen: Pen, p: Pose): Pose {
    Pose(p.x + pen.length * pen.cos(p.angle), p.y + pen.length * pen.sin(p.angle), p.angle)
  }

  /** One instruction; `None` when `]` finds the stack empty. */
  function Step(pen: Pen, w: Walk, c: char): Option<Walk> {
    if c == 'F' then
      var q := Advance(pen, w.pose);
      Some(w.(pose := q, segments := w.segments + [Segment(w.pose.x, w.pose.y, q.x, q.y)]))
    else if c == '+' then
      Some(w.(pose := w.pose.(angle := w.pose.angle + pen.rotation)))
    else if c == '-' then
      Some(w.(pose := w.pose.(angle := w.pose.angle - pen.rotation)))
    else if c == '[' then
      Some(w.(stack := w.stack + [w.pose]))
    else if c == ']' then
      if w.stack == [] then None
      else Some(w.(pose := w.stack[|w.stack| - 1], stack := w.stack[..|w.stack| - 1]))
    else
      Some(w)
  }

  /** The instructions of `s`, in order, from `w`; `None` once one of them fails. */
  function Run(pen: Pen, w: Walk, s: string): Option<Walk> {
    if s == [] then Some(w)
    else match Run(pen, w, s[..|s| - 1])
      case None => None
      case Some(u) => Step(pen, u, s[|s| - 1])
  }

  /** `Run` continued from an optional state. */
  function Then(pen: Pen, o: Option<Walk>, s: string): Option<Walk> {
    match o
    case None => None
    case Some(u) => Run(pen, u, s)
  }

  /** The walk `getLines` starts from: the system's pose, an empty stack, nothing drawn. */
  function Start(x: real, y: real, angle: real): Walk {
    Walk(Pose(x, y, angle), [], [])
  }

  /** No prefix of `s` closes more brackets than it opens plus the `depth` already open. */
  ghost predicate NeverUnderflows(s: string, depth: nat) {
    forall i :: 0 <= i <= |s| ==> Occurrences(s[..i], ']') <= Occurrences(s[..i], '[') + depth
  }

  /**
   * Segments drawn one after the other: each starts where the previous one
   * ended, the first at (x, y), and the walk stands at (ex, ey) at the end.
   */
  ghost predicate Chained(x: real, y: real, segs: seq<Segment>, ex: real, ey: real) {
    && (|segs| > 0 ==> segs[0].From() == (x, y))
    && (forall l :: 0 < l < |segs| ==> segs[l].From() == segs[l - 1].To())
    && (if segs == [] then (ex, ey) == (x, y) else (ex, ey) == segs[|segs| - 1].To())
  }

  /** The `lines` vector: four reals (x, y, new_x, new_y) per segment, in drawing order. */
  function Flatten(segs: seq<Segment>): (r: seq<real>)
    ensures |r| == 4 * |segs|
  {
    if segs == [] then []
    else
      var s := segs[|segs| - 1];
      Flatten(segs[..|segs| - 1]) + [s.x0, s.y0, s.x1, s.y1]
  }

  /** The heading change the turns of `s` add up to: the rotation for each +, minus it for each -. */
  function Turning(rotation: real, s: string): real {
    if s == [] then 0.0
    else
      var c := s[|s| - 1];
      Turning(rotation, s[..|s| - 1]) + (if c == '+' then rotation else if c == '-' then -rotation else 0.0)
  }

  /** The walk of drawTree in refRenderer.cpp, where [ and ] do nothing (there is no stack). */
  function FlatRun(pen: Pen, w: Walk, s: string): Walk {
    if s == [] then w
    else
      var u := FlatRun(pen, w, s[..|s| - 1]);
      var c := s[|s| - 1];
      if c == '[' || c == ']' then u else Step(pen, u, c).value
  }

  // ---------------------------------------------------------------- lemmas

  /** Running `a + b` is running `a`, then `b` from where `a` stopped. */
  lemma {:induction false} RunAppend(pen: Pen, w: Walk, a: string, b: string)
    ensures Run(pen, w, a + b) == Then(pen, Run(pen, w, a), b)
  {
    if b == [] {
      assert a + b == a;
    } else {
      var b', c := b[..|b| - 1], b[|b| - 1];
      var ab := a + b;
      assert ab[..|ab| - 1] == a + b' && ab[|ab| - 1] == c;
      RunAppend(pen, w, a, b');
    }
  }

  /** A single instruction runs as that one step. */
  lemma RunSingle(pen: Pen, w: Walk, c: char)
    ensures Run(pen, w, [c]) == Step(pen, w, c)
  {
    assert [c][..0] == [];
  }

  /**
   * A completed run draws one segment per F, keeps the segments drawn
   * before, and leaves one pose on the stack per unmatched [.
   */
  lemma {:induction false} RunCounts(pen: Pen, w: Walk, s: string)
    requires Run(pen, w, s).Some?
    ensures |Run(pen, w, s).value.segments| == |w.segments| + Occurrences(s, 'F')
    ensures Run(pen, w, s).value.segments[..|w.segments|] == w.segments
    ensures |Run(pen, w, s).value.stack| + Occurrences(s, ']') == |w.stack| + Occurrences(s, '[')
  {
    if s != [] {
      var s', c := s[..|s| - 1], s[|s| - 1];
      assert s == s' + [c];
      RunCounts(pen, w, s');
      var u := Run(pen, w, s').value;
      assert Run(pen, w, s) == Step(pen, u, c);
      StepCounts(pen, u, c);
      OccurrencesSnoc(s', c, 'F');
      OccurrencesSnoc(s', c, '[');
      OccurrencesSnoc(s', c, ']');
    }
  }

  /** One instruction adds a segment exactly for F, keeps the earlier ones, and pushes for [ and pops for ]. */
  lemma StepCounts(pen: Pen, u: Walk, c: char)
    requires Step(pen, u, c).Some?
    ensures |Step(pen, u, c).value.segments| == |u.segments| + (if c == 'F' then 1 else 0)
    ensures Step(pen, u, c).value.segments[..|u.segments|] == u.segments
    ensures |Step(pen, u, c).value.stack| + (if c == ']' then 1 else 0) == |u.stack| + (if c == '[' then 1 else 0)
  {
  }

  /** Whether a prefix underflows is decided by the shorter prefixes and the whole string. */
  lemma NeverUnderflowsSnoc(s: string, depth: nat)
    requires |s| > 0
    ensures NeverUnderflows(s, depth) <==>
      NeverUnderflows(s[..|s| - 1], depth) && Occurrences(s, ']') <= Occurrences(s, '[') + depth
  {
    var s' := s[..|s| - 1];
    forall i | 0 <= i <= |s'|
      ensures s[..i] == s'[..i]
    {
    }
    assert s[..|s|] == s;
  }

  /** A prefix of a string that never underflows never underflows either. */
  lemma NeverUnderflowsPrefix(s: string, i: nat, depth: nat)
    requires i <= |s| && NeverUnderflows(s, depth)
    ensures NeverUnderflows(s[..i], depth)
  {
    forall j | 0 <= j <= i
      ensures s[..i][..j] == s[..j]
    {
    }
  }

  /** The stack never runs dry (the run is defined) exactly when no prefix closes an unopened bracket. */
  lemma {:induction false} RunDefinedIff(pen: Pen, w: Walk, s: string)
    ensures Run(pen, w, s).Some? <==> NeverUnderflows(s, |w.stack|)
  {
    if s == [] {
      assert s[..0] == [];
    } else {
      var s', c := s[..|s| - 1], s[|s| - 1];
      assert s == s' + [c];
      RunDefinedIff(pen, w, s');
      NeverUnderflowsSnoc(s, |w.stack|);
      if Run(pen, w, s').Some? {
        RunCounts(pen, w, s');
      }
    }
  }

  /**
   * Running one symbol further: on a string that never closes an unopened
   * bracket, every prefix runs, and each one is the previous one plus a step.
   */
  lemma RunPrefixStep(pen: Pen, w: Walk, s: string, i: nat)
    requires i < |s| && NeverUnderflows(s, |w.stack|)
    ensures Run(pen, w, s[..i]).Some? && Run(pen, w, s[..i + 1]).Some?
    ensures Run(pen, w, s[..i + 1]) == Step(pen, Run(pen, w, s[..i]).value, s[i])
  {
    NeverUnderflowsPrefix(s, i, |w.stack|);
    NeverUnderflowsPrefix(s, i + 1, |w.stack|);
    RunDefinedIff(pen, w, s[..i]);
    RunDefinedIff(pen, w, s[..i + 1]);
    assert s[..i + 1][..i] == s[..i];
  }

  /** Poses saved below the ones a run uses are never touched by it. */
  lemma {:induction false} RunFrame(pen: Pen, w: Walk, base: seq<Pose>, s: string)
    requires Run(pen, w, s).Some?
    ensures Run(pen, w.(stack := base + w.stack), s)
         == Some(Run(pen, w, s).value.(stack := base + Run(pen, w, s).value.stack))
  {
    if s != [] {
      var s', c := s[..|s| - 1], s[|s| - 1];
      RunFrame(pen, w, base, s');
      var u := Run(pen, w, s').value;
      if c == ']' {
        assert (base + u.stack)[..|base + u.stack| - 1] == base + u.stack[..|u.stack| - 1];
      } else if c == '[' {
        assert base + u.stack + [u.pose] == base + (u.stack + [u.pose]);
      }
    }
  }

  /**
   * LIFO restore: a bracketed block whose own brackets balance returns to the
   * pose and stack it started from, keeping the segments it drew.
   */
  lemma BracketRestores(pen: Pen, w: Walk, q: string)
    requires NeverUnderflows(q, 0) && Occurrences(q, '[') == Occurrences(q, ']')
    ensures Run(pen, Walk(w.pose, [], w.segments), q).Some?
    ensures Run(pen, w, ['['] + q + [']'])
         == Some(w.(segments := Run(pen, Walk(w.pose, [], w.segments), q).value.segments))
  {
    var w0 := Walk(w.pose, [], w.segments);
    RunDefinedIff(pen, w0, q);
    RunCounts(pen, w0, q);
    var u := Run(pen, w0, q).value;
    var saved := w.stack + [w.pose];
    assert w0.(stack := saved + w0.stack) == w.(stack := saved);
    RunFrame(pen, w0, saved, q);
    RunSingle(pen, w, '[');
    RunAppend(pen, w, ['['], q);
    RunSingle(pen, u.(stack := saved), ']');
    RunAppend(pen, w, ['['] + q, [']']);
  }

  /** A string of turns only changes the heading, by the turns it adds up to. */
  lemma {:induction false} TurnsOnlyTurn(pen: Pen, w: Walk, s: string)
    requires forall i :: 0 <= i < |s| ==> s[i] == '+' || s[i] == '-'
    ensures Run(pen, w, s) == Some(w.(pose := w.pose.(angle := w.pose.angle + Turning(pen.rotation, s))))
  {
    if s != [] {
      var s' := s[..|s| - 1];
      TurnsOnlyTurn(pen, w, s');
    } else {
      assert w.pose.(angle := w.pose.angle + 0.0) == w.pose;
    }
  }

  /**
   * Without brackets a run cannot fail, keeps the stack, and ends with the
   * heading turned by the turns of the string.
   */
  lemma {:induction false} HeadingWithoutBrackets(pen: Pen, w: Walk, s: string)
    requires Occurrences(s, '[') == 0 && Occurrences(s, ']') == 0
    ensures Run(pen, w, s).Some?
    ensures Run(pen, w, s).value.stack == w.stack
    ensures Run(pen, w, s).value.pose.angle == w.pose.angle + Turning(pen.rotation, s)
  {
    if s != [] {
      var s', c := s[..|s| - 1], s[|s| - 1];
      assert s == s' + [c];
      HeadingWithoutBrackets(pen, w, s');
    }
  }

  /** The turns of a concatenation are the turns of its parts, added. */
  lemma {:induction false} TurningAppend(rotation: real, a: string, b: string)
    ensures Turning(rotation, a + b) == Turning(rotation, a) + Turning(rotation, b)
  {
    if b != [] {
      var b', c := b[..|b| - 1], b[|b| - 1];
      var ab := a + b;
      assert ab[..|ab| - 1] == a + b' && ab[|ab| - 1] == c;
      TurningAppend(rotation, a, b');
    } else {
      assert a + b == a;
    }
  }

  /** A rule that gives every symbol a replacement with the same net turn keeps the net turn of a string. */
  lemma {:induction false} TurningPreserved(rotation: real, rule: Rule, s: string)
    requires forall c :: Turning(rotation, rule(c)) == Turning(rotation, [c])
    ensures Turning(rotation, Expand(rule, s)) == Turning(rotation, s)
  {
    if s != [] {
      var s', c := s[..|s| - 1], s[|s| - 1];
      TurningPreserved(rotation, rule, s');
      TurningAppend(rotation, Expand(rule, s'), rule(c));
      TurningAppend(rotation, s', [c]);
      assert s' + [c] == s;
    }
  }

  /**
   * Without ] every segment starts where the previous one ended (the first
   * at the starting position), and the walk ends at the last segment's end.
   */
  lemma {:induction false} SegmentsConnect(pen: Pen, w: Walk, s: string)
    requires Occurrences(s, ']') == 0
    ensures Run(pen, w, s).Some?
    ensures |w.segments| <= |Run(pen, w, s).value.segments|
    ensures Chained(w.pose.x, w.pose.y, Run(pen, w, s).value.segments[|w.segments|..],
                    Run(pen, w, s).value.pose.x, Run(pen, w, s).value.pose.y)
  {
    if s != [] {
      var s', c := s[..|s| - 1], s[|s| - 1];
      assert s == s' + [c];
      SegmentsConnect(pen, w, s');
      RunCounts(pen, w, s');
      var u := Run(pen, w, s').value;
      if c == 'F' {
        var q := Advance(pen, u.pose);
        var seg := Segment(u.pose.x, u.pose.y, q.x, q.y);
        assert (u.segments + [seg])[|w.segments|..] == u.segments[|w.segments|..] + [seg];
        ChainedSnoc(w.pose.x, w.pose.y, u.segments[|w.segments|..], u.pose.x, u.pose.y, seg);
      }
    } else {
      assert w.segments[|w.segments|..] == [];
    }
  }

  /** A segment that starts where a chain ends extends it. */
  lemma ChainedSnoc(x: real, y: real, segs: seq<Segment>, ex: real, ey: real, seg: Segment)
    requires Chained(x, y, segs, ex, ey) && seg.From() == (ex, ey)
    ensures Chained(x, y, segs + [seg], seg.x1, seg.y1)
  {
  }

  /** Segment `l` occupies slots 4l .. 4l+3 of the flattened vector, as (x0, y0, x1, y1). */
  lemma {:induction false} FlattenSlots(segs: seq<Segment>, l: nat)
    requires l < |segs|
    ensures Flatten(segs)[4 * l] == segs[l].x0 && Flatten(segs)[4 * l + 1] == segs[l].y0
    ensures Flatten(segs)[4 * l + 2] == segs[l].x1 && Flatten(segs)[4 * l + 3] == segs[l].y1
  {
    var front := segs[..|segs| - 1];
    if l < |front| {
      FlattenSlots(front, l);
      assert front[l] == segs[l];
    }
  }

  /** Appending one segment appends its four coordinates. */
  lemma FlattenSnoc(segs: seq<Segment>, s: Segment)
    ensures Flatten(segs + [s]) == Flatten(segs) + [s.x0, s.y0, s.x1, s.y1]
  {
    assert (segs + [s])[..|segs|] == segs;
  }

  /** On a string without brackets the stackless walk of drawTree is the walk of getLines. */
  lemma {:induction false} FlatRunAgrees(pen: Pen, w: Walk, s: string)
    requires Occurrences(s, '[') == 0 && Occurrences(s, ']') == 0
    ensures Run(pen, w, s) == Some(FlatRun(pen, w, s))
  {
    if s != [] {
      var s', c := s[..|s| - 1], s[|s| - 1];
      assert s == s' + [c];
      FlatRunAgrees(pen, w, s');
    }
  }

  /** The stackless walk draws one segment per F, after the ones drawn before, and never touches the stack. */
  lemma {:induction false} FlatRunCounts(pen: Pen, w: Walk, s: string)
    ensures |FlatRun(pen, w, s).segments| == |w.segments| + Occurrences(s, 'F')
    ensures FlatRun(pen, w, s).segments[..|w.segments|] == w.segments
    ensures FlatRun(pen, w, s).stack == w.stack
  {
    if s != [] {
      var s', c := s[..|s| - 1], s[|s| - 1];
      assert s == s' + [c];
      FlatRunCounts(pen, w, s');
    }
  }

  /** The same, over any number of generations. */
  lemma {:induction false} GenerationTurningPreserved(rotation: real, rule: Rule, axiom: string, d: nat)
    requires forall c :: Turning(rotation, rule(c)) == Turning(rotation, [c])
    ensures Turning(rotation, Generation(rule, axiom, d)) == Turning(rotation, axiom)
  {
    if d > 0 {
      GenerationTurningPreserved(rotation, rule, axiom, d - 1);
      TurningPreserved(rotation, rule, Generation(rule, axiom, d - 1));
    }
  }

  /** The net turn of a prefix one symbol longer. */
  lemma TurningPrefixStep(rotation: real, s: string, i: nat)
    requires i < |s|
    ensures Turning(rotation, s[..i + 1])
         == Turning(rotation, s[..i]) + (if s[i] == '+' then rotation else if s[i] == '-' then -rotation else 0.0)
  {
    assert s[..i + 1][..i] == s[..i];
  }

  /** F+F-F-F+F turns left twice and right twice: no net turn. */
  lemma KochTurn(rotation: real)
    ensures Turning(rotation, "F+F-F-F+F") == 0.0
  {
    var k := "F+F-F-F+F";
    for i := 0 to 9
      invariant Turning(rotation, k[..i]) == if i in {2, 3} then rotation else if i in {6, 7} then -rotation else 0.0
    {
      TurningPrefixStep(rotation, k, i);
    }
    assert k[..9] == k;
  }

  /** A symbol that does not appear has no occurrences. */
  lemma AbsentNoOccurrences(s: string, c: char)
    requires c !in s
    ensures Occurrences(s, c) == 0
  {
  }

  /** F+F-F-F+F holds no brackets. */
  lemma KochBrackets()
    ensures Occurrences("F+F-F-F+F", '[') == 0 && Occurrences("F+F-F-F+F", ']') == 0
    ensures Occurrences("F", '[') == 0 && Occurrences("F", ']') == 0
  {
    AbsentNoOccurrences("F+F-F-F+F", '[');
    AbsentNoOccurrences("F+F-F-F+F", ']');
    AbsentNoOccurrences("F", '[');
    AbsentNoOccurrences("F", ']');
  }

  /** What the Koch table gives one symbol: no brackets beyond the symbol's own, and the same net turn. */
  lemma KochSymbol(rotation: real, c: char)
    ensures Occurrences(MapRule(KochRules)(c), '[') == Occurrences([c], '[')
    ensures Occurrences(MapRule(KochRules)(c), ']') == Occurrences([c], ']')
    ensures Turning(rotation, MapRule(KochRules)(c)) == Turning(rotation, [c])
  {
    if c == 'F' {
      KochBrackets();
      KochTurn(rotation);
      assert "F"[..0] == [];
    }
  }

  /** Every Koch curve generation from F is free of brackets. */
  lemma KochCurveBracketFree(d: nat)
    ensures Occurrences(Generation(MapRule(KochRules), "F", d), '[') == 0
    ensures Occurrences(Generation(MapRule(KochRules), "F", d), ']') == 0
  {
    var r := MapRule(KochRules);
    forall c
      ensures Occurrences(r(c), '[') == Occurrences([c], '[')
      ensures Occurrences(r(c), ']') == Occurrences([c], ']')
    {
      KochSymbol(0.0, c);
    }
    GenerationCountPreserved(r, "F", d, '[');
    GenerationCountPreserved(r, "F", d, ']');
    KochBrackets();
  }

  /** Every Koch curve generation from F turns as much left as right. */
  lemma KochCurveNoNetTurn(rotation: real, d: nat)
    ensures Turning(rotation, Generation(MapRule(KochRules), "F", d)) == 0.0
  {
    var r := MapRule(KochRules);
    forall c
      ensures Turning(rotation, r(c)) == Turning(rotation, [c])
    {
      KochSymbol(rotation, c);
    }
    GenerationTurningPreserved(rotation, r, "F", d);
    assert "F"[..0] == [];
  }

  /**
   * A Koch curve generation, drawn from any state: it never pops, leaves the
   * stack and the heading as they were, and draws 5^d segments joined end to
   * end into one polyline.
   */
  lemma KochCurveWalk(pen: Pen, w: Walk, d: nat)
    ensures Run(pen, w, Generation(MapRule(KochRules), "F", d)).Some?
    ensures var u := Run(pen, w, Generation(MapRule(KochRules), "F", d)).value;
      && u.stack == w.stack
      && u.pose.angle == w.pose.angle
      && |u.segments| == |w.segments| + Pow(5, d)
      && Chained(w.pose.x, w.pose.y, u.segments[|w.segments|..], u.pose.x, u.pose.y)
  {
    var g := Generation(MapRule(KochRules), "F", d);
    KochCurveBracketFree(d);
    KochCurveNoNetTurn(pen.rotation, d);
    KochRulesShaped();
    KochGenerations(MapRule(KochRules), d);
    HeadingWithoutBrackets(pen, w, g);
    RunCounts(pen, w, g);
    SegmentsConnect(pen, w, g);
  }

  // ---------------------------------------------------------------- well-bracketed rewriting

  /** A well-bracketed string: no prefix closes an unopened bracket, and every bracket it opens is closed. */
  ghost predicate Balanced(s: string) {
    NeverUnderflows(s, 0) && Occurrences(s, '[') == Occurrences(s, ']')
  }

  /** Counting over a concatenation adds up the counts of the parts. */
  lemma OccurrencesAppend(a: string, b: string, c: char)
    ensures Occurrences(a + b, c) == Occurrences(a, c) + Occurrences(b, c)
  {
    assert multiset(a + b) == multiset(a) + multiset(b);
  }

  /** `a` then `b` never underflows when `b` does not from the depth `a` leaves open. */
  lemma NeverUnderflowsAppend(a: string, b: string, depth: nat)
    requires NeverUnderflows(a, depth) && Occurrences(a, ']') <= Occurrences(a, '[') + depth
    requires NeverUnderflows(b, depth + Occurrences(a, '[') - Occurrences(a, ']'))
    ensures NeverUnderflows(a + b, depth)
  {
    var open := depth + Occurrences(a, '[') - Occurrences(a, ']');
    forall i | 0 <= i <= |a + b|
      ensures Occurrences((a + b)[..i], ']') <= Occurrences((a + b)[..i], '[') + depth
    {
      if i <= |a| {
        assert (a + b)[..i] == a[..i];
      } else {
        var k := i - |a|;
        assert (a + b)[..i] == a + b[..k];
        assert Occurrences(b[..k], ']') <= Occurrences(b[..k], '[') + open;
        OccurrencesAppend(a, b[..k], '[');
        OccurrencesAppend(a, b[..k], ']');
      }
    }
  }

  /** One symbol never underflows, unless it is a ] with nothing open. */
  lemma SingleNeverUnderflows(c: char, depth: nat)
    requires c == ']' ==> depth >= 1
    ensures NeverUnderflows([c], depth)
  {
    assert [c][..0] == [] && [c][..1] == [c];
  }

  /** A string without brackets is well-bracketed. */
  lemma BalancedPlain(s: string)
    requires '[' !in s && ']' !in s
    ensures Balanced(s)
  {
    forall i | 0 <= i <= |s|
      ensures Occurrences(s[..i], ']') <= Occurrences(s[..i], '[')
    {
      assert ']' !in s[..i] by {
        assert forall k :: 0 <= k < i ==> s[..i][k] == s[k];
      }
      AbsentNoOccurrences(s[..i], ']');
    }
    AbsentNoOccurrences(s, '[');
    AbsentNoOccurrences(s, ']');
  }

  /** Two well-bracketed strings in a row are well-bracketed. */
  lemma BalancedAppend(a: string, b: string)
    requires Balanced(a) && Balanced(b)
    ensures Balanced(a + b)
  {
    assert a[..|a|] == a;
    NeverUnderflowsAppend(a, b, 0);
    OccurrencesAppend(a, b, '[');
    OccurrencesAppend(a, b, ']');
  }

  /** A well-bracketed string between [ and ] is well-bracketed. */
  lemma BalancedWrap(q: string)
    requires Balanced(q)
    ensures Balanced(['['] + q + [']'])
  {
    var open := ['['] + q;
    SingleNeverUnderflows('[', 0);
    OccurrencesAppend(['['], q, '[');
    OccurrencesAppend(['['], q, ']');
    assert NeverUnderflows(q, 1);
    NeverUnderflowsAppend(['['], q, 0);
    SingleNeverUnderflows(']', 1);
    NeverUnderflowsAppend(open, [']'], 0);
    OccurrencesAppend(open, [']'], '[');
    OccurrencesAppend(open, [']'], ']');
  }

  /** Every replacement is the symbol itself, or a well-bracketed string standing for a symbol that is no bracket. */
  ghost predicate KeepsBrackets(r: Rule) {
    forall c :: r(c) == [c] || (c != '[' && c != ']' && Balanced(r(c)))
  }

  /**
   * Rewriting under such a rule keeps a string from closing an unopened
   * bracket, and keeps the number of brackets it leaves open.
   */
  lemma {:induction false} ExpandNeverUnderflows(r: Rule, s: string, depth: nat)
    requires KeepsBrackets(r) && NeverUnderflows(s, depth)
    ensures NeverUnderflows(Expand(r, s), depth)
    ensures Occurrences(Expand(r, s), '[') - Occurrences(Expand(r, s), ']') == Occurrences(s, '[') - Occurrences(s, ']')
  {
    if s != [] {
      var s', c := s[..|s| - 1], s[|s| - 1];
      assert s == s' + [c];
      NeverUnderflowsPrefix(s, |s| - 1, depth);
      ExpandNeverUnderflows(r, s', depth);
      var e := Expand(r, s');
      assert s[..|s|] == s && s'[..|s'|] == s';
      OccurrencesSnoc(s', c, '[');
      OccurrencesSnoc(s', c, ']');
      OccurrencesAppend(e, r(c), '[');
      OccurrencesAppend(e, r(c), ']');
      var open := depth + Occurrences(e, '[') - Occurrences(e, ']');
      if r(c) == [c] {
        SingleNeverUnderflows(c, open);
      } else {
        assert NeverUnderflows(r(c), open);
      }
      NeverUnderflowsAppend(e, r(c), 0 + depth);
    }
  }

  /** The same over any number of generations, from an axiom that never underflows. */
  lemma {:induction false} GenerationNeverUnderflows(r: Rule, axiom: string, d: nat)
    requires KeepsBrackets(r) && NeverUnderflows(axiom, 0)
    ensures NeverUnderflows(Generation(r, axiom, d), 0)
    ensures Occurrences(Generation(r, axiom, d), '[') - Occurrences(Generation(r, axiom, d), ']')
         == Occurrences(axiom, '[') - Occurrences(axiom, ']')
  {
    if d > 0 {
      GenerationNeverUnderflows(r, axiom, d - 1);
      ExpandNeverUnderflows(r, Generation(r, axiom, d - 1), 0);
    }
  }

  /** The shape p[[q]r]t[u]v of the fern's X replacement is well-bracketed when its pieces hold no bracket. */
  lemma BalancedFernShape(p: string, q: string, r: string, t: string, u: string, v: string)
    requires '[' !in p && ']' !in p && '[' !in q && ']' !in q && '[' !in r && ']' !in r
    requires '[' !in t && ']' !in t && '[' !in u && ']' !in u && '[' !in v && ']' !in v
    ensures Balanced(p + (['['] + (['['] + q + [']'] + r) + [']']) + t + (['['] + u + [']']) + v)
  {
    BalancedPlain(q);
    BalancedWrap(q);
    BalancedPlain(r);
    BalancedAppend(['['] + q + [']'], r);
    BalancedWrap(['['] + q + [']'] + r);
    BalancedPlain(p);
    BalancedAppend(p, ['['] + (['['] + q + [']'] + r) + [']']);
    BalancedPlain(t);
    BalancedAppend(p + (['['] + (['['] + q + [']'] + r) + [']']), t);
    BalancedPlain(u);
    BalancedWrap(u);
    BalancedAppend(p + (['['] + (['['] + q + [']'] + r) + [']']) + t, ['['] + u + [']']);
    BalancedPlain(v);
    BalancedAppend(p + (['['] + (['['] + q + [']'] + r) + [']']) + t + (['['] + u + [']']), v);
  }

  /** F-[[X]+X]+F[+FX]-X has that shape. */
  lemma FernXShape()
    ensures "F-" + (['['] + (['['] + "X" + [']'] + "+X") + [']']) + "+F" + (['['] + "+FX" + [']']) + "-X"
      == "F-[[X]+X]+F[+FX]-X"
  {
  }

  /** The fern's X replacement F-[[X]+X]+F[+FX]-X is well-bracketed. */
  lemma FernXBalanced()
    ensures Balanced("F-[[X]+X]+F[+FX]-X")
  {
    FernXShape();
    BalancedFernShape("F-", "X", "+X", "+F", "+FX", "-X");
  }

  /** The fern table turns X and F into well-bracketed strings and leaves every other symbol alone. */
  lemma FernKeepsBrackets()
    ensures KeepsBrackets(MapRule(FernRules))
  {
    forall c {
      FernSymbolBrackets(c);
    }
  }

  /** What the fern table does to one symbol's brackets. */
  lemma FernSymbolBrackets(c: char)
    ensures MapRule(FernRules)(c) == [c] || (c != '[' && c != ']' && Balanced(MapRule(FernRules)(c)))
  {
    if c == 'X' {
      var x := MapRule(FernRules)(c);
      assert x == "F-[[X]+X]+F[+FX]-X";
      FernXBalanced();
      assert Balanced(x);
    } else if c == 'F' {
      var f := MapRule(FernRules)(c);
      assert f == "FF";
      BalancedPlain("FF");
      assert Balanced(f);
    } else {
      assert MapRule(FernRules)(c) == [c];
    }
  }


  /**
   * Every fern generation from X is well-bracketed, so the turtle of
   * getLines never pops an empty stack on it and ends with the stack empty.
   */
  lemma FernGenerationsBalanced(pen: Pen, w: Walk, d: nat)
    requires w.stack == []
    ensures Balanced(Generation(MapRule(FernRules), "X", d))
    ensures Run(pen, w, Generation(MapRule(FernRules), "X", d)).Some?
    ensures Run(pen, w, Generation(MapRule(FernRules), "X", d)).value.stack == []
  {
    var g := Generation(MapRule(FernRules), "X", d);
    FernKeepsBrackets();
    BalancedPlain("X");
    GenerationNeverUnderflows(MapRule(FernRules), "X", d);
    RunDefinedIff(pen, w, g);
    RunCounts(pen, w, g);
  }
}
