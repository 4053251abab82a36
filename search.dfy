/**
 `re.search(pattern, text, re.IGNORECASE)` for a pattern of the shape
 `(?:L1|L2|...)<tail>`: the starting positions 0, 1, ..., |text| are tried
 from left to right, and at each position the label alternatives in their
 written order; the first combination whose tail captures a group wins.
 */
module Re {
  import opened Scan
  import opened Tails
  import opened Wrappers

  /** Label alternatives followed by a tail, as in `(?:Total|Amount|...)[:\s]*...`. */
  datatype Pattern = Pattern(labels: seq<string>, tail: Tail)

  /** A match object: where the match starts, which alternative matched, and group 1. */
  datatype Match = Match(pos: nat, alt: nat, group: Span)

  /** Where the label of alternative k ends when it starts at i. */
  function LabelEnd(pat: Pattern, i: nat, k: nat): nat
    requires k < |pat.labels|
  {
    i + |pat.labels[k]|
  }

  /** Declaratively: the pattern matches at i through alternative k, with group 1 equal to text[s..e]. */
  ghost predicate MatchesAt(pat: Pattern, text: string, i: nat, k: nat, s: nat, e: nat) {
    k < |pat.labels| && LabelAt(text, i, pat.labels[k]) &&
    Tails.Matches(pat.tail, text, LabelEnd(pat, i, k), s, e)
  }

  /** The alternative k occurs at i and its tail then captures g. */
  predicate AltCaptures(pat: Pattern, text: string, i: nat, k: nat, g: Span) {
    k < |pat.labels| && LabelAt(text, i, pat.labels[k]) &&
    Capture(pat.tail, text, LabelEnd(pat, i, k)) == Some(g)
  }

  /** The alternative k does not occur at i, or its tail captures nothing there. */
  predicate AltFails(pat: Pattern, text: string, i: nat, k: nat)
    requires k < |pat.labels|
  {
    !LabelAt(text, i, pat.labels[k]) || Capture(pat.tail, text, LabelEnd(pat, i, k)).None?
  }

  /** The alternatives from k on, tried in order at position i. */
  function TryAlternatives(pat: Pattern, text: string, i: nat, k: nat): (r: Option<Match>)
    requires i <= |text|
    ensures r.Some? ==> r.value.pos == i && k <= r.value.alt && AltCaptures(pat, text, i, r.value.alt, r.value.group)
    ensures forall j :: k <= j < |pat.labels| && (r.None? || j < r.value.alt) ==> AltFails(pat, text, i, j)
    decreases |pat.labels| - k
  {
    if k >= |pat.labels| then None
    else if LabelAt(text, i, pat.labels[k]) && Capture(pat.tail, text, LabelEnd(pat, i, k)).Some? then
      Some(Match(i, k, Capture(pat.tail, text, LabelEnd(pat, i, k)).value))
    else TryAlternatives(pat, text, i, k + 1)
  }

  /** The match of the pattern at position i, if any (what `pattern.match(text, i)` returns). */
  function MatchAt(pat: Pattern, text: string, i: nat): (r: Option<Match>)
    requires i <= |text|
    ensures r.Some? ==> r.value.pos == i && r.value.group.start <= r.value.group.end <= |text|
  {
    TryAlternatives(pat, text, i, 0)
  }

  /** `re.search` from position `from`: the leftmost position at which the pattern matches. */
  function Search(pat: Pattern, text: string, from: nat): (r: Option<Match>)
    requires from <= |text|
    ensures r.Some? ==> from <= r.value.pos <= |text| && MatchAt(pat, text, r.value.pos) == r
    ensures forall j :: from <= j <= |text| && (r.None? || j < r.value.pos) ==> MatchAt(pat, text, j).None?
    decreases |text| - from
  {
    if MatchAt(pat, text, from).Some? then MatchAt(pat, text, from)
    else if from == |text| then None
    else Search(pat, text, from + 1)
  }

  /** A match that MatchAt reports is a match of the pattern. */
  lemma MatchAtSound(pat: Pattern, text: string, i: nat)
    requires i <= |text| && MatchAt(pat, text, i).Some?
    ensures var m := MatchAt(pat, text, i).value;
      MatchesAt(pat, text, i, m.alt, m.group.start, m.group.end)
  {
    var m := MatchAt(pat, text, i).value;
    CaptureSound(pat.tail, text, LabelEnd(pat, i, m.alt));
  }

  /** The group MatchAt reports is the one the tail of its alternative captures. */
  lemma MatchAtGroup(pat: Pattern, text: string, i: nat, k: nat)
    requires i <= |text| && MatchAt(pat, text, i).Some? && MatchAt(pat, text, i).value.alt == k
    ensures k < |pat.labels| && LabelEnd(pat, i, k) <= |text|
    ensures Capture(pat.tail, text, LabelEnd(pat, i, k)) == Some(MatchAt(pat, text, i).value.group)
  {
  }

  /** When alternative k occurs at i and its tail captures g, MatchAt reports a match through
      alternative k or an earlier one, and through k itself with group g. */
  lemma MatchAtTakesFirst(pat: Pattern, text: string, i: nat, k: nat, g: Span)
    requires i <= |text| && AltCaptures(pat, text, i, k, g)
    ensures MatchAt(pat, text, i).Some?
    ensures var m := MatchAt(pat, text, i).value; m.alt <= k && (m.alt == k ==> m.group == g)
  {
    assert !AltFails(pat, text, i, k);
    if MatchAt(pat, text, i).value.alt == k {
      MatchAtGroup(pat, text, i, k);
    }
  }

  /** Whenever the pattern matches at i, MatchAt reports a match there, through the earliest
      alternative that matches, with the group Python returns for that alternative. */
  lemma MatchAtComplete(pat: Pattern, text: string, i: nat, k: nat, s: nat, e: nat)
    requires MatchesAt(pat, text, i, k, s, e)
    ensures i <= |text| && MatchAt(pat, text, i).Some?
    ensures var m := MatchAt(pat, text, i).value;
      m.alt <= k && (m.alt == k ==> Prefers(pat.tail, m.group, s, e))
  {
    var p := LabelEnd(pat, i, k);
    CaptureComplete(pat.tail, text, p, s, e);
    MatchAtTakesFirst(pat, text, i, k, Capture(pat.tail, text, p).value);
  }

  /** A match at j means `re.search` reports one no further right, and, if at j itself,
      through an alternative no later than k, with Python's group for it. */
  lemma SearchFinds(pat: Pattern, text: string, j: nat, k: nat, s: nat, e: nat)
    requires MatchesAt(pat, text, j, k, s, e)
    ensures Search(pat, text, 0).Some?
    ensures var m := Search(pat, text, 0).value;
      m.pos <= j && (m.pos == j ==> m.alt <= k && (m.alt == k ==> Prefers(pat.tail, m.group, s, e)))
  {
    MatchAtComplete(pat, text, j, k, s, e);
  }

  /** `re.search` semantics: the reported match is a match, no match starts further left, and
      at its position it takes the first alternative that matches and Python's group for it;
      when nothing is reported, the pattern matches nowhere. */
  lemma SearchLeftmost(pat: Pattern, text: string)
    ensures Search(pat, text, 0).Some? ==>
      var m := Search(pat, text, 0).value;
      MatchesAt(pat, text, m.pos, m.alt, m.group.start, m.group.end) &&
      (forall j: nat, k: nat, s: nat, e: nat :: j < m.pos ==> !MatchesAt(pat, text, j, k, s, e)) &&
      (forall k: nat, s: nat, e: nat :: MatchesAt(pat, text, m.pos, k, s, e) ==>
         m.alt <= k && (m.alt == k ==> Prefers(pat.tail, m.group, s, e)))
    ensures Search(pat, text, 0).None? ==>
      forall j: nat, k: nat, s: nat, e: nat :: !MatchesAt(pat, text, j, k, s, e)
  {
    forall j: nat, k: nat, s: nat, e: nat | MatchesAt(pat, text, j, k, s, e)
      ensures Search(pat, text, 0).Some?
      ensures var m := Search(pat, text, 0).value;
        m.pos <= j && (m.pos == j ==> m.alt <= k && (m.alt == k ==> Prefers(pat.tail, m.group, s, e)))
    {
      SearchFinds(pat, text, j, k, s, e);
    }
    if Search(pat, text, 0).Some? {
      MatchAtSound(pat, text, Search(pat, text, 0).value.pos);
    }
  }

  /** No two labels start with the same letter, up to case, so at most one alternative occurs at any position. */
  predicate DistinctInitials(labels: seq<string>) {
    (forall a :: 0 <= a < |labels| ==> |labels[a]| > 0) &&
    forall a, b :: 0 <= a < b < |labels| ==> Chars.Lower(labels[a][0]) != Chars.Lower(labels[b][0])
  }

  /** No label of the pattern begins with a character of piece, up to case. */
  predicate NoInitialIn(pat: Pattern, piece: string) {
    forall c, k :: c in piece && 0 <= k < |pat.labels| && |pat.labels[k]| > 0 ==> !Chars.FoldEq(c, pat.labels[k][0])
  }

  /** Where no label occurs, the pattern does not match. */
  lemma NoLabelNoMatch(pat: Pattern, text: string, i: nat)
    requires i <= |text| && forall k :: 0 <= k < |pat.labels| ==> !LabelAt(text, i, pat.labels[k])
    ensures MatchAt(pat, text, i).None?
  {
  }

  /** `re.search` passes over a stretch of text in which no label can begin. */
  lemma {:induction false} SearchSkips(pat: Pattern, text: string, lo: nat, hi: nat)
    requires lo <= hi <= |text| && DistinctInitials(pat.labels) && NoInitialIn(pat, text[lo..hi])
    ensures Search(pat, text, lo) == Search(pat, text, hi)
    decreases hi - lo
  {
    if lo < hi {
      assert text[lo..hi] == [text[lo]] + text[lo + 1..hi];
      forall k | 0 <= k < |pat.labels| ensures !LabelAt(text, lo, pat.labels[k]) {
        assert text[lo] in text[lo..hi] && !Chars.FoldEq(text[lo + 0], pat.labels[k][0]);
      }
      NoLabelNoMatch(pat, text, lo);
      forall c, k | c in text[lo + 1..hi] && 0 <= k < |pat.labels| && |pat.labels[k]| > 0
        ensures !Chars.FoldEq(c, pat.labels[k][0])
      {
        assert c in text[lo..hi];
      }
      SearchSkips(pat, text, lo + 1, hi);
    }
  }

  /** The pattern does not match anywhere in text. */
  ghost predicate NoMatch(pat: Pattern, text: string) {
    forall j: nat, k: nat, s: nat, e: nat :: !MatchesAt(pat, text, j, k, s, e)
  }

  /** The match `re.search` returns, described without running the search: it matches at i through
      alternative k with group text[s..e], no match starts further left, and Python's matcher
      prefers that group to every other group alternative k admits at i. */
  ghost predicate FirstMatch(pat: Pattern, text: string, i: nat, k: nat, s: nat, e: nat) {
    MatchesAt(pat, text, i, k, s, e) &&
    (forall j: nat, k': nat, s': nat, e': nat :: j < i ==> !MatchesAt(pat, text, j, k', s', e')) &&
    (forall s': nat, e': nat :: MatchesAt(pat, text, i, k, s', e') ==> Prefers(pat.tail, Span(s, e), s', e'))
  }

  /** With distinct initials, only one alternative can occur at a position. */
  lemma OneAlternative(pat: Pattern, text: string, i: nat, a: nat, b: nat)
    requires DistinctInitials(pat.labels)
    requires a < |pat.labels| && b < |pat.labels|
    requires LabelAt(text, i, pat.labels[a]) && LabelAt(text, i, pat.labels[b])
    ensures a == b
  {
    assert Chars.FoldEq(text[i + 0], pat.labels[a][0]) && Chars.FoldEq(text[i + 0], pat.labels[b][0]);
  }

  /** Python never prefers two different groups to each other. */
  lemma PrefersAntisymmetric(t: Tail, g: Span, s: nat, e: nat)
    requires Prefers(t, g, s, e) && Prefers(t, Span(s, e), g.start, g.end)
    ensures g == Span(s, e)
  {
  }

  /** `re.search` returns exactly the match FirstMatch describes. */
  lemma SearchReturns(pat: Pattern, text: string, i: nat, k: nat, s: nat, e: nat)
    requires DistinctInitials(pat.labels) && FirstMatch(pat, text, i, k, s, e)
    ensures Search(pat, text, 0) == Some(Match(i, k, Span(s, e)))
  {
    SearchFinds(pat, text, i, k, s, e);
    var m := Search(pat, text, 0).value;
    SearchLeftmost(pat, text);
    OneAlternative(pat, text, i, m.alt, k);
    PrefersAntisymmetric(pat.tail, m.group, s, e);
  }

  /** Conversely, whatever `re.search` returns is the match FirstMatch describes. */
  lemma SearchIsFirstMatch(pat: Pattern, text: string)
    requires Search(pat, text, 0).Some?
    ensures var m := Search(pat, text, 0).value;
      FirstMatch(pat, text, m.pos, m.alt, m.group.start, m.group.end)
  {
    SearchLeftmost(pat, text);
  }

  /** `re.search` returns nothing exactly when the pattern matches nowhere. */
  lemma SearchNone(pat: Pattern, text: string)
    ensures Search(pat, text, 0).None? <==> NoMatch(pat, text)
  {
    SearchLeftmost(pat, text);
  }
}
