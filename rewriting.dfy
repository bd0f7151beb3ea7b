/**
 * The rewriting semantics shared by the three L-system expanders
 * (lsystem.cpp, generation_class.cpp and generation.cpp): one generation
 * replaces every symbol by its rule's replacement, in order, and a symbol
 * without a rule stands for itself.
 */
module Rewriting {

  /** A production rule set, seen as the replacement it gives each symbol. */
  type Rule = char -> string

  /** The replacement a `char -> string` table gives `c`: its entry, or `c` itself when it has none. */
  function Lookup(rules: map<char, string>, c: char): string {
    if c in rules then rules[c] else [c]
  }

  /** The rule a `char -> string` table stands for. */
  function MapRule(rules: map<char, string>): Rule {
    c => Lookup(rules, c)
  }

  /** Number of occurrences of `c` in `s`. */
  function Occurrences(s: string, c: char): nat {
    multiset(s)[c]
  }

  /** Appending one symbol adds one occurrence of that symbol and no other. */
  lemma OccurrencesSnoc(s: string, x: char, c: char)
    ensures Occurrences(s + [x], c) == Occurrences(s, c) + (if x == c then 1 else 0)
  {
    assert multiset(s + [x]) == multiset(s) + multiset{x};
  }

  /** One generation: the replacements of the symbols of `s`, concatenated in order. */
  function Expand(rule: Rule, s: string): string {
    if s == [] then [] else Expand(rule, s[..|s| - 1]) + rule(s[|s| - 1])
  }

  /** Generation `d` of the axiom: the axiom itself for `d == 0`, then one `Expand` per generation. */
  function Generation(rule: Rule, axiom: string, d: nat): string {
    if d == 0 then axiom else Expand(rule, Generation(rule, axiom, d - 1))
  }

  /** The length of each symbol's replacement, in input order. */
  function Sizes(rule: Rule, s: string): (r: seq<nat>)
    ensures |r| == |s|
  {
    seq(|s|, i requires 0 <= i < |s| => |rule(s[i])|)
  }

  /** Sum of a sequence of sizes, added up from the left. */
  function Sum(xs: seq<nat>): nat {
    if xs == [] then 0 else Sum(xs[..|xs| - 1]) + xs[|xs| - 1]
  }

  /** Rewriting is a homomorphism of strings: it maps "" to "" and concatenation to concatenation. */
  lemma {:induction false} ExpandAppend(rule: Rule, a: string, b: string)
    ensures Expand(rule, []) == []
    ensures Expand(rule, a + b) == Expand(rule, a) + Expand(rule, b)
  {
    if b == [] {
      assert a + b == a;
    } else {
      var b', c := b[..|b| - 1], b[|b| - 1];
      var ab := a + b;
      assert ab[..|ab| - 1] == a + b' && ab[|ab| - 1] == c;
      ExpandAppend(rule, a, b');
      assert Expand(rule, ab) == Expand(rule, a + b') + rule(c);
    }
  }

  /** Rewriting a single symbol yields exactly that symbol's replacement. */
  lemma ExpandSingle(rule: Rule, c: char)
    ensures Expand(rule, [c]) == rule(c)
  {
    assert [c][..0] == [];
  }

  /** The sizes of a prefix are the prefix of the sizes. */
  lemma SizesPrefix(rule: Rule, s: string, i: nat)
    requires i <= |s|
    ensures Sizes(rule, s[..i]) == Sizes(rule, s)[..i]
  {
  }

  /** The length of one generation is the sum of the lengths of the replacements of its symbols. */
  lemma {:induction false} ExpandLength(rule: Rule, s: string)
    ensures |Expand(rule, s)| == Sum(Sizes(rule, s))
  {
    if s != [] {
      var s' := s[..|s| - 1];
      ExpandLength(rule, s');
      SizesPrefix(rule, s, |s| - 1);
      assert Sizes(rule, s)[..|s| - 1] == Sizes(rule, s');
    }
  }

  /** Two rules that agree on every symbol of `s` rewrite `s` identically. */
  lemma {:induction false} ExpandAgree(f: Rule, g: Rule, s: string)
    requires forall c :: c in s ==> f(c) == g(c)
    ensures Expand(f, s) == Expand(g, s)
  {
    if s != [] {
      var s' := s[..|s| - 1];
      assert forall c :: c in s' ==> c in s;
      ExpandAgree(f, g, s');
    }
  }

  /** Two rules that agree everywhere produce the same generations. */
  lemma {:induction false} GenerationAgree(f: Rule, g: Rule, axiom: string, d: nat)
    requires forall c :: f(c) == g(c)
    ensures Generation(f, axiom, d) == Generation(g, axiom, d)
  {
    if d > 0 {
      GenerationAgree(f, g, axiom, d - 1);
      ExpandAgree(f, g, Generation(g, axiom, d - 1));
    }
  }

  /** An empty axiom stays empty at every depth. */
  lemma {:induction false} GenerationOfEmpty(rule: Rule, d: nat)
    ensures Generation(rule, [], d) == []
  {
    if d > 0 {
      GenerationOfEmpty(rule, d - 1);
    }
  }

  /** Generations compose: `d + e` generations are `e` generations of generation `d`. */
  lemma {:induction false} GenerationCompose(rule: Rule, axiom: string, d: nat, e: nat)
    ensures Generation(rule, axiom, d + e) == Generation(rule, Generation(rule, axiom, d), e)
  {
    if e > 0 {
      GenerationCompose(rule, axiom, d, e - 1);
    }
  }

  /**
   * A rule under which every symbol's replacement holds as many `ch` as the
   * symbol itself keeps the number of `ch` of every generation.
   */
  lemma {:induction false} CountPreserved(rule: Rule, s: string, ch: char)
    requires forall c :: Occurrences(rule(c), ch) == Occurrences([c], ch)
    ensures Occurrences(Expand(rule, s), ch) == Occurrences(s, ch)
  {
    if s != [] {
      var s', c := s[..|s| - 1], s[|s| - 1];
      assert s == s' + [c];
      CountPreserved(rule, s', ch);
    }
  }

  /** The same, over any number of generations. */
  lemma {:induction false} GenerationCountPreserved(rule: Rule, axiom: string, d: nat, ch: char)
    requires forall c :: Occurrences(rule(c), ch) == Occurrences([c], ch)
    ensures Occurrences(Generation(rule, axiom, d), ch) == Occurrences(axiom, ch)
  {
    if d > 0 {
      GenerationCountPreserved(rule, axiom, d - 1, ch);
      CountPreserved(rule, Generation(rule, axiom, d - 1), ch);
    }
  }

  /** A prefix holds no more copies of a symbol than the whole string. */
  lemma OccurrencesPrefix(s: string, i: nat, c: char)
    requires i <= |s|
    ensures Occurrences(s[..i], c) <= Occurrences(s, c)
  {
    assert s == s[..i] + s[i..];
    assert multiset(s) == multiset(s[..i]) + multiset(s[i..]);
  }
}
