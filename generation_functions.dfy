/**
 * generation.cpp: the expander written as free functions, with the rules
 * passed as a function from a symbol to its replacement.
 * The generations that `generate` prints are returned as a list instead.
 */
module GenerationFunctions {
  import opened Rewriting
  import opened Presets

  /** The Koch rule given as a function: F -> F+F-F-F+F, any other symbol -> itself. */
  function KochCurveRule(c: char): (r: string)
    ensures |r| == (if c == 'F' then 9 else 1)
    ensures r[0] == c
  {
    if c == 'F' then "F+F-F-F+F" else [c]
  }

  /** The rule function agrees with the Koch table used by the classes. */
  lemma KochCurveRuleIsKochTable(c: char)
    ensures KochCurveRule(c) == MapRule(KochRules)(c)
  {
  }

  /**
   * With the Koch rule function from "F": generation 1 is F+F-F-F+F,
   * and generation `d` holds 5^d copies of F among 2*5^d - 1 symbols.
   */
  lemma KochCurveRuleGenerations(d: nat)
    ensures Generation(KochCurveRule, "F", 1) == "F+F-F-F+F"
    ensures Occurrences(Generation(KochCurveRule, "F", d), 'F') == Pow(5, d)
    ensures |Generation(KochCurveRule, "F", d)| == 2 * Pow(5, d) - 1
  {
    ExpandSingle(KochCurveRule, 'F');
    assert multiset("F+F-F-F+F")['F'] == 5;
    assert KochShaped(KochCurveRule);
    KochGenerations(KochCurveRule, d);
  }

  /** One generation: appends the replacement of each input symbol, in order. */
  method Update(input: string, rules: Rule) returns (output: string)
    ensures output == Expand(rules, input)
  {
    output := [];
    for i := 0 to |input|
      invariant output == Expand(rules, input[..i])
    {
      var next := rules(input[i]);
      assert input[..i + 1][..i] == input[..i];
      output := output + next;
    }
    assert input[..|input|] == input;
  }

  /**
   * Runs `d` generations from the axiom. Returns every generation it prints:
   * the axiom first, then one more line per update, `d` updates in all
   * (none when `d` is negative).
   */
  method Generate(axiom: string, d: int, rules: Rule) returns (printed: seq<string>)
    ensures |printed| == (if d < 0 then 0 else d) + 1
    ensures forall i :: 0 <= i < |printed| ==> printed[i] == Generation(rules, axiom, i)
  {
    var current := axiom;
    printed := [current];
    var i := 0;
    while i < d
      invariant 0 <= i <= (if d < 0 then 0 else d)
      invariant current == Generation(rules, axiom, i)
      invariant |printed| == i + 1
      invariant forall k :: 0 <= k < |printed| ==> printed[k] == Generation(rules, axiom, k)
    {
      current := Update(current, rules);
      printed := printed + [current];
      i := i + 1;
    }
  }
}
