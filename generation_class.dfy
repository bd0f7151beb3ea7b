/**
 * generation_class.cpp: the L-system as a class holding its axiom, its
 * `char -> string` rule table and its drawing parameters, with the
 * sequential expander `Update`, the scatter expander `UpdatePar`
 * (sizes, exclusive scan, scatter) and `Generate`.
 */
module GenerationClass {
  import opened Rewriting
  import opened PrefixScan
  import opened Presets
  import opened Colors

  class LSystem {
    const axiom: string
    const rules: map<char, string>
    const rotation: real
    var x: real
    var y: real
    var angle: real
    var length: real
    var color: Rgb

    /** Stores the grammar, the turn angle and the starting pose, step length and colour. */
    constructor (axiom: string, rules: map<char, string>, rotation: real,
                 x: real, y: real, angle: real, length: real, color: Rgb)
      ensures this.axiom == axiom && this.rules == rules && this.rotation == rotation
      ensures this.x == x && this.y == y && this.angle == angle
      ensures this.length == length && this.color == color
    {
      this.axiom := axiom;
      this.rules := rules;
      this.rotation := rotation;
      this.x := x;
      this.y := y;
      this.angle := angle;
      this.length := length;
      this.color := color;
    }

    /** The Koch curve preset of this file: axiom F, rule F -> F+F-F-F+F, turn angle 80. */
    constructor KochCurve(x: real, y: real, angle: real, length: real, color: Rgb)
      ensures axiom == "F" && rules == KochRules && rotation == 80.0
      ensures this.x == x && this.y == y && this.angle == angle
      ensures this.length == length && this.color == color
    {
      axiom := "F";
      rules := KochRules;
      rotation := 80.0;
      this.x := x;
      this.y := y;
      this.angle := angle;
      this.length := length;
      this.color := color;
    }

    /** One generation, appending each symbol's rule (or the symbol itself) in order. */
    method Update(input: string) returns (output: string)
      ensures output == Expand(MapRule(rules), input)
    {
      output := [];
      for i := 0 to |input|
        invariant output == Expand(MapRule(rules), input[..i])
      {
        var c := input[i];
        assert input[..i + 1][..i] == input[..i];
        if c in rules {
          output := output + rules[c];
        } else {
          output := output + [c];
        }
      }
      assert input[..|input|] == input;
    }

    /**
     * One generation computed the parallel way: the size of each symbol's
     * replacement, their exclusive scan as write offsets, then an independent
     * write of each replacement at its offset. Needs a non-empty input (the
     * total is read from the last offset and size).
     */
    method UpdatePar(input: string) returns (result: string)
      requires |input| > 0
      ensures result == Expand(MapRule(rules), input)
    {
      var n := |input|;
      var outputSizes := ReplacementSizes(input);
      var outputSums := ExclusiveScan(outputSizes[..]);
      var outputSize := outputSums[n - 1] + outputSizes[n - 1];
      var output := ScatterReplacements(input, outputSums, outputSize);
      result := output[..];
    }

    /** Phase one of `UpdatePar`: the length of each symbol's replacement. */
    method ReplacementSizes(input: string) returns (outputSizes: array<nat>)
      ensures fresh(outputSizes)
      ensures outputSizes[..] == Sizes(MapRule(rules), input)
    {
      outputSizes := new nat[|input|];
      for i := 0 to |input|
        invariant forall k :: 0 <= k < i ==> outputSizes[k] == |Lookup(rules, input[k])|
      {
        if input[i] in rules {
          outputSizes[i] := |rules[input[i]]|;
        } else {
          outputSizes[i] := 1;
        }
      }
    }

    /**
     * Phase three of `UpdatePar`: each symbol's replacement written at its
     * offset in an output of the total size; the result is the rewritten string.
     */
    method ScatterReplacements(input: string, outputSums: seq<nat>, outputSize: nat) returns (output: array<char>)
      requires outputSums == ExclusiveScan(Sizes(MapRule(rules), input))
      requires |input| > 0
      requires outputSize == outputSums[|input| - 1] + |Lookup(rules, input[|input| - 1])|
      ensures fresh(output)
      ensures output[..] == Expand(MapRule(rules), input)
    {
      ghost var r := MapRule(rules);
      ghost var sizes := Sizes(r, input);
      output := new char[outputSize];
      ghost var written: nat := 0;
      ScanStart(sizes);
      for i := 0 to |input|
        invariant written == if i < |input| then outputSums[i] else outputSize
        invariant written <= outputSize
        invariant output[..written] == Expand(r, input[..i])
      {
        RangeInsideLast(sizes, i);
        ghost var before := output[..];
        ghost var rep := r(input[i]);
        if input[i] in rules {
          CopyInto(output, outputSums[i], rules[input[i]]);
        } else {
          output[outputSums[i]] := input[i];
        }
        assert output[..written + |rep|] == before[..written] + rep;
        assert input[..i + 1][..i] == input[..i];
        written := written + |rep|;
        if i + 1 < |input| {
          ScanSteps(sizes, i);
        }
      }
      assert input[..|input|] == input;
    }

    /** Generation `d` of the axiom (the axiom itself when `d <= 0`). */
    method Generate(d: int) returns (current: string)
      ensures current == Generation(MapRule(rules), axiom, if d < 0 then 0 else d)
    {
      current := axiom;
      var i := 0;
      while i < d
        invariant 0 <= i <= (if d < 0 then 0 else d)
        invariant current == Generation(MapRule(rules), axiom, i)
      {
        current := Update(current);
        i := i + 1;
      }
    }
  }

  /** Copies `s` into `output` from `offset` on; every other slot keeps its value. */
  method CopyInto(output: array<char>, offset: nat, s: string)
    requires offset + |s| <= output.Length
    modifies output
    ensures forall k :: 0 <= k < output.Length ==>
      output[k] == if offset <= k < offset + |s| then s[k - offset] else old(output[k])
  {
    for j := 0 to |s|
      invariant forall k :: 0 <= k < output.Length ==>
        output[k] == if offset <= k < offset + j then s[k - offset] else old(output[k])
    {
      output[offset + j] := s[j];
    }
  }

  /** The first generation of this file's Koch curve preset is F+F-F-F+F. */
  lemma KochCurveFirstGeneration(ls: LSystem)
    requires ls.axiom == "F" && ls.rules == KochRules
    ensures Generation(MapRule(ls.rules), ls.axiom, 1) == "F+F-F-F+F"
  {
    KochFirstGenerations();
  }
}
