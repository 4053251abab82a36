/**
 Building blocks of the pattern scanners: runs of one character class (what a
 greedy `x*` or `x{m,n}` consumes) and case-insensitive label matching.
 */
module Scan {
  import opened Chars

  /** Every character of text[a..b] belongs to class c. */
  predicate AllIn(text: string, a: nat, b: nat, c: CharClass)
    requires a <= b <= |text|
  {
    forall k :: a <= k < b ==> c.Holds(text[k])
  }

  /** End of the longest run of class-c characters that starts at i: what a greedy `c*` consumes. */
  function RunEnd(text: string, i: nat, c: CharClass): (j: nat)
    requires i <= |text|
    ensures i <= j <= |text|
    ensures AllIn(text, i, j, c)
    ensures j == |text| || !c.Holds(text[j])
    decreases |text| - i
  {
    if i == |text| || !c.Holds(text[i]) then i else RunEnd(text, i + 1, c)
  }

  /** End of the longest run of at most n class-c characters that starts at i: what a greedy `c{m,n}` tries first. */
  function RunUpTo(text: string, i: nat, c: CharClass, n: nat): (j: nat)
    requires i <= |text|
    ensures i <= j <= |text| && j <= i + n
    ensures AllIn(text, i, j, c)
    ensures j == |text| || j == i + n || !c.Holds(text[j])
    decreases n
  {
    if n == 0 || i == |text| || !c.Holds(text[i]) then i else RunUpTo(text, i + 1, c, n - 1)
  }

  /** Every run of class c that starts at i ends no later than the greedy one. */
  lemma RunWithin(text: string, i: nat, j: nat, c: CharClass)
    requires i <= j <= |text| && AllIn(text, i, j, c)
    ensures j <= RunEnd(text, i, c)
  {
  }

  /** A run of class c that stops at a character outside c is the greedy run. */
  lemma RunEndIs(text: string, i: nat, j: nat, c: CharClass)
    requires i <= j <= |text| && AllIn(text, i, j, c)
    requires j == |text| || !c.Holds(text[j])
    ensures RunEnd(text, i, c) == j
  {
    RunWithin(text, i, j, c);
  }

  /** Every run of at most n class-c characters that starts at i ends no later than the bounded greedy one. */
  lemma RunUpToWithin(text: string, i: nat, j: nat, c: CharClass, n: nat)
    requires i <= j <= |text| && j <= i + n && AllIn(text, i, j, c)
    ensures j <= RunUpTo(text, i, c, n)
  {
  }

  /** A run of at most n class-c characters that cannot be extended is the bounded greedy run. */
  lemma RunUpToIs(text: string, i: nat, j: nat, c: CharClass, n: nat)
    requires i <= j <= |text| && j <= i + n && AllIn(text, i, j, c)
    requires j == |text| || j == i + n || !c.Holds(text[j])
    ensures RunUpTo(text, i, c, n) == j
  {
    RunUpToWithin(text, i, j, c, n);
  }

  /** A class run seen inside the piece text[lo..hi]. */
  lemma AllInSlice(text: string, lo: nat, a: nat, b: nat, hi: nat, c: CharClass)
    requires lo <= a <= b <= hi <= |text| && AllIn(text, a, b, c)
    ensures AllIn(text[lo..hi], a - lo, b - lo, c)
  {
  }

  /** The label `key` occurs at position i of text, up to ASCII case (a literal pattern under `re.IGNORECASE`). */
  predicate LabelAt(text: string, i: nat, key: string) {
    i + |key| <= |text| && forall k :: 0 <= k < |key| ==> FoldEq(text[i + k], key[k])
  }

  /** A label occurrence depends only on the characters it covers, not on what surrounds
      them: the patterns have no word boundary, so labels are also found inside words. */
  lemma LabelAtLocal(text: string, i: nat, key: string, before: string, after: string)
    requires i + |key| <= |text|
    ensures LabelAt(text, i, key) <==> LabelAt(before + text[i..i + |key|] + after, |before|, key)
  {
    var w := before + text[i..i + |key|] + after;
    forall k | 0 <= k < |key| ensures FoldEq(w[|before| + k], key[k]) <==> FoldEq(text[i + k], key[k]) {
      assert w[|before| + k] == text[i + k];
    }
  }

  /** Under `re.IGNORECASE` the case in which a label is written does not matter. */
  lemma LabelAtIgnoresCase(text: string, i: nat, key: string)
    ensures LabelAt(text, i, key) <==> LabelAt(text, i, LowerAll(key))
  {
    if i + |key| <= |text| {
      forall k | 0 <= k < |key| ensures FoldEq(text[i + k], key[k]) <==> FoldEq(text[i + k], LowerAll(key)[k]) {
      }
    }
  }

  /** Every character lower-cased. */
  function LowerAll(s: string): (r: string)
    ensures |r| == |s| && forall k :: 0 <= k < |s| ==> r[k] == Lower(s[k])
  {
    if s == [] then [] else [Lower(s[0])] + LowerAll(s[1..])
  }
}
