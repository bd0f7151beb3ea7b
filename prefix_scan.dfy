/**
 * The exclusive prefix sum that gives each symbol of a generation its write
 * offset in the scatter-based expander, and the facts the scatter relies on:
 * the write ranges are disjoint, cover the output, and each lands exactly
 * where sequential rewriting puts that symbol's replacement.
 */
module PrefixScan {
  import opened Rewriting

  /** Exclusive scan: element `i` is the sum of the sizes strictly before `i`. */
  function ExclusiveScan(xs: seq<nat>): (r: seq<nat>)
    ensures |r| == |xs|
  {
    seq(|xs|, i requires 0 <= i < |xs| => Sum(xs[..i]))
  }

  /** The first offset is 0. */
  lemma ScanStart(xs: seq<nat>)
    requires |xs| > 0
    ensures ExclusiveScan(xs)[0] == 0
  {
  }

  /** The scan starts at 0 and each offset is the previous one plus the previous size. */
  lemma ScanSteps(xs: seq<nat>, i: nat)
    requires i + 1 < |xs|
    ensures ExclusiveScan(xs)[0] == 0
    ensures ExclusiveScan(xs)[i + 1] == ExclusiveScan(xs)[i] + xs[i]
  {
    assert xs[..i + 1][..i] == xs[..i];
  }

  /** The last offset plus the last size is the total size of the output. */
  lemma ScanTotal(xs: seq<nat>)
    requires |xs| > 0
    ensures ExclusiveScan(xs)[|xs| - 1] + xs[|xs| - 1] == Sum(xs)
  {
    assert xs[..|xs|][..|xs| - 1] == xs[..|xs| - 1];
    assert xs[..|xs|] == xs;
  }

  /** Offsets never decrease: a later range starts at or after the end of an earlier one. */
  lemma {:induction false} RangesDisjoint(xs: seq<nat>, i: nat, j: nat)
    requires i < j < |xs|
    ensures ExclusiveScan(xs)[i] + xs[i] <= ExclusiveScan(xs)[j]
  {
    if j == i + 1 {
      ScanSteps(xs, i);
    } else {
      RangesDisjoint(xs, i, j - 1);
      ScanSteps(xs, j - 1);
    }
  }

  /** The range of symbol `i` ends no later than the last range. */
  lemma RangeInsideLast(xs: seq<nat>, i: nat)
    requires i < |xs|
    ensures ExclusiveScan(xs)[i] + xs[i] <= ExclusiveScan(xs)[|xs| - 1] + xs[|xs| - 1]
  {
    if i < |xs| - 1 {
      RangesDisjoint(xs, i, |xs| - 1);
    }
  }

  /** Every output position lies in the write range of some symbol. */
  lemma {:induction false} RangesCover(xs: seq<nat>, k: nat) returns (i: nat)
    requires k < Sum(xs)
    ensures i < |xs| && ExclusiveScan(xs)[i] <= k < ExclusiveScan(xs)[i] + xs[i]
  {
    var n := |xs| - 1;
    var front := xs[..n];
    if k < Sum(front) {
      i := RangesCover(front, k);
      assert xs[..i] == front[..i];
    } else {
      i := n;
      assert xs[..n] == front;
    }
  }

  /** Each output position belongs to exactly one write range. */
  lemma RangesUnique(xs: seq<nat>, k: nat, i: nat, j: nat)
    requires i < |xs| && ExclusiveScan(xs)[i] <= k < ExclusiveScan(xs)[i] + xs[i]
    requires j < |xs| && ExclusiveScan(xs)[j] <= k < ExclusiveScan(xs)[j] + xs[j]
    ensures i == j
  {
    if i < j {
      RangesDisjoint(xs, i, j);
    } else if j < i {
      RangesDisjoint(xs, j, i);
    }
  }

  /**
   * The scatter write of slot `j` of symbol `i` at offset `ExclusiveScan(...)[i] + j`
   * puts the same character where sequential rewriting has it.
   */
  lemma ScatterAgrees(rule: Rule, s: string, i: nat, j: nat)
    requires i < |s| && j < |rule(s[i])|
    ensures ExclusiveScan(Sizes(rule, s))[i] + j < |Expand(rule, s)|
    ensures Expand(rule, s)[ExclusiveScan(Sizes(rule, s))[i] + j] == rule(s[i])[j]
  {
    var pre, mid, post := s[..i], s[i..i + 1], s[i + 1..];
    assert s == pre + mid + post;
    assert mid == [s[i]];
    ExpandAppend(rule, pre + mid, post);
    ExpandAppend(rule, pre, mid);
    ExpandSingle(rule, s[i]);
    ExpandLength(rule, pre);
    SizesPrefix(rule, s, i);
    assert Expand(rule, s) == Expand(rule, pre) + rule(s[i]) + Expand(rule, post);
  }
}
