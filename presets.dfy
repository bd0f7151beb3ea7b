/**
 * The two named grammars of the repository, the Koch curve and the fern,
 * and what their generations contain: lengths and symbol counts in closed form.
 *
 * The counting lemmas are stated for any rule that treats F and X the way the
 * preset does (`KochShaped`, `FernShaped`), so that they apply both to the
 * `char -> string` tables of lsystem.cpp / generation_class.cpp and to the
 * rule function of generation.cpp.
 */
module Presets {
  import opened Rewriting

  /** Koch curve rules: F -> F+F-F-F+F. */
  const KochRules: map<char, string> := map['F' := "F+F-F-F+F"]

  /** Fern rules: X -> F-[[X]+X]+F[+FX]-X and F -> FF. */
  const FernRules: map<char, string> := map['X' := "F-[[X]+X]+F[+FX]-X", 'F' := "FF"]

  function Pow(b: nat, e: nat): nat {
    if e == 0 then 1 else b * Pow(b, e - 1)
  }

  /** 2^d * 2^d == 4 * (2^(d-1) * 2^(d-1)). */
  lemma SquareStep(d: nat)
    requires d >= 1
    ensures Pow(2, d) * Pow(2, d) == 4 * (Pow(2, d - 1) * Pow(2, d - 1))
  {
    var p := Pow(2, d - 1);
    assert Pow(2, d) == 2 * p;
  }

  /**
   * The fern closed form satisfies F(d) == 2 * F(d-1) + 3 * 4^(d-1), for d >= 2: a count `f`
   * obtained from the previous count `f1` and the previous X count `x1` has the closed form.
   */
  lemma FernClosedFormStep(d: nat, f: int, f1: int, x1: int)
    requires d >= 2
    requires f1 == 3 * Pow(2, d - 2) * (Pow(2, d - 1) - 1)
    requires x1 == Pow(2, d - 1) * Pow(2, d - 1)
    requires f == 2 * f1 + 3 * x1
    ensures f == 3 * Pow(2, d - 1) * (Pow(2, d) - 1)
  {
    var q: int := Pow(2, d - 2);
    var p: int := Pow(2, d - 1);
    assert p == 2 * q;
    assert Pow(2, d) == 2 * p;
    // 2 * 3q(p - 1) + 3p*p == 3p(p - 1) + 3p*p == 3p(2p - 1)
    assert 2 * (3 * q * (p - 1)) == 3 * p * (p - 1);
  }

  /** A rule that turns F into 9 symbols holding 5 F, and any other symbol into one non-F symbol. */
  ghost predicate KochShaped(r: Rule) {
    forall c :: && Occurrences(r(c), 'F') == (if c == 'F' then 5 else 0)
                && |r(c)| == (if c == 'F' then 9 else 1)
  }

  /** A rule that turns X into 4 X and 3 F, F into 2 F, and creates no X or F from anything else. */
  ghost predicate FernShaped(r: Rule) {
    forall c :: && Occurrences(r(c), 'X') == (if c == 'X' then 4 else 0)
                && Occurrences(r(c), 'F') == (if c == 'X' then 3 else if c == 'F' then 2 else 0)
  }

  /** The Koch table has the Koch shape. */
  lemma KochRulesShaped()
    ensures KochShaped(MapRule(KochRules))
    ensures forall c :: c != 'F' ==> MapRule(KochRules)(c) == [c]
  {
    assert multiset("F+F-F-F+F")['F'] == 5;
  }

  /** The fern table has the fern shape. */
  lemma FernRulesShaped()
    ensures FernShaped(MapRule(FernRules))
  {
    forall c {
      FernSymbol(c);
    }
  }

  lemma FernSymbol(c: char)
    ensures Occurrences(MapRule(FernRules)(c), 'X') == (if c == 'X' then 4 else 0)
    ensures Occurrences(MapRule(FernRules)(c), 'F') == (if c == 'X' then 3 else if c == 'F' then 2 else 0)
  {
    if c == 'X' {
      assert MapRule(FernRules)(c) == "F-[[X]+X]+F[+FX]-X";
      FernXCountX();
      FernXCountF();
    } else if c == 'F' {
      assert MapRule(FernRules)(c) == "FF";
      assert multiset("FF")['X'] == 0 && multiset("FF")['F'] == 2;
    } else {
      assert MapRule(FernRules)(c) == [c];
    }
  }

  /** The X replacement holds 4 X ... */
  lemma FernXCountX()
    ensures multiset("F-[[X]+X]+F[+FX]-X")['X'] == 4
  {
  }

  /** ... and 3 F. */
  lemma FernXCountF()
    ensures multiset("F-[[X]+X]+F[+FX]-X")['F'] == 3
  {
  }

  /** One Koch generation multiplies the F count by 5 and adds 8 symbols per F. */
  lemma {:induction false} KochStep(r: Rule, s: string)
    requires KochShaped(r)
    ensures Occurrences(Expand(r, s), 'F') == 5 * Occurrences(s, 'F')
    ensures |Expand(r, s)| == |s| + 8 * Occurrences(s, 'F')
  {
    if s != [] {
      var s', c := s[..|s| - 1], s[|s| - 1];
      assert s == s' + [c];
      KochStep(r, s');
    }
  }

  /** Koch generation `d` from "F" holds 5^d copies of F and 2*5^d - 1 symbols. */
  lemma {:induction false} KochGenerations(r: Rule, d: nat)
    requires KochShaped(r)
    ensures Occurrences(Generation(r, "F", d), 'F') == Pow(5, d)
    ensures |Generation(r, "F", d)| == 2 * Pow(5, d) - 1
  {
    if d == 0 {
      assert multiset("F")['F'] == 1;
    } else {
      var g := Generation(r, "F", d - 1);
      assert Generation(r, "F", d) == Expand(r, g);
      KochGenerations(r, d - 1);
      KochStep(r, g);
    }
  }

  /** The first Koch generation is F+F-F-F+F (9 symbols); the second has 49 symbols. */
  lemma KochFirstGenerations()
    ensures Generation(MapRule(KochRules), "F", 1) == "F+F-F-F+F"
    ensures |Generation(MapRule(KochRules), "F", 2)| == 49
  {
    ExpandSingle(MapRule(KochRules), 'F');
    KochRulesShaped();
    KochGenerations(MapRule(KochRules), 2);
  }

  /** One fern generation: X count times 4, F count doubled plus 3 per X. */
  lemma {:induction false} FernStep(r: Rule, s: string)
    requires FernShaped(r)
    ensures Occurrences(Expand(r, s), 'X') == 4 * Occurrences(s, 'X')
    ensures Occurrences(Expand(r, s), 'F') == 2 * Occurrences(s, 'F') + 3 * Occurrences(s, 'X')
  {
    if s != [] {
      var s', c := s[..|s| - 1], s[|s| - 1];
      assert s == s' + [c];
      FernStep(r, s');
    }
  }

  /** Fern generation `d` from "X" holds 4^d = 2^d * 2^d copies of X. */
  lemma {:induction false} FernX(r: Rule, d: nat)
    requires FernShaped(r)
    ensures Occurrences(Generation(r, "X", d), 'X') == Pow(2, d) * Pow(2, d)
  {
    if d == 0 {
      assert multiset("X")['X'] == 1;
    } else {
      var g := Generation(r, "X", d - 1);
      assert Generation(r, "X", d) == Expand(r, g);
      FernX(r, d - 1);
      FernStep(r, g);
      SquareStep(d);
    }
  }

  /** For d >= 1 fern generation `d` from "X" holds 3 * 2^(d-1) * (2^d - 1) copies of F. */
  lemma {:induction false} FernF(r: Rule, d: nat)
    requires FernShaped(r) && d >= 1
    ensures Occurrences(Generation(r, "X", d), 'F') == 3 * Pow(2, d - 1) * (Pow(2, d) - 1)
  {
    var g := Generation(r, "X", d - 1);
    assert Generation(r, "X", d) == Expand(r, g);
    FernStep(r, g);
    FernX(r, d - 1);
    if d == 1 {
      FernFirst(r);
    } else {
      FernF(r, d - 1);
      FernClosedFormStep(d, Occurrences(Expand(r, g), 'F'), Occurrences(g, 'F'), Occurrences(g, 'X'));
    }
  }

  /** The first fern generation holds 3 F. */
  lemma FernFirst(r: Rule)
    requires FernShaped(r)
    ensures Occurrences(Generation(r, "X", 1), 'F') == 3
  {
    assert Generation(r, "X", 1) == Expand(r, "X");
    FernStep(r, "X");
    assert multiset("X")['F'] == 0 && multiset("X")['X'] == 1;
  }
}
