/**
 The three Python string methods the extractor applies to a captured group:
 `s.replace(",", "")`, `s.strip()` and `s.split("\n")[0]`.
 */
module PyStr {
  import opened Chars
  import Scan

  /** `s.replace(x, "")` for a one-character x: every occurrence of x is removed. */
  function RemoveChar(s: string, x: char): (r: string)
    ensures x !in r
    ensures forall c :: c in r <==> c in s && c != x
    ensures x !in s ==> r == s
  {
    if s == [] then []
    else
      assert s == [s[0]] + s[1..];
      if s[0] == x then RemoveChar(s[1..], x) else [s[0]] + RemoveChar(s[1..], x)
  }

  /** Length of the whitespace suffix of t. */
  function TrailingSpace(t: string): (n: nat)
    ensures n <= |t|
    ensures forall k :: |t| - n <= k < |t| ==> IsSpace(t[k])
    ensures n == |t| || !IsSpace(t[|t| - n - 1])
  {
    if t == [] || !IsSpace(t[|t| - 1]) then 0 else TrailingSpace(t[..|t| - 1]) + 1
  }

  /** `s.strip()`: the leading and the trailing whitespace are removed, and nothing else.
      The result is the piece of s that starts where the leading whitespace ends
      (Scan.RunEnd(s, 0, Space)), and only whitespace follows it. */
  function Strip(s: string): (r: string)
    ensures |r| <= |s|
    ensures r == [] || (!IsSpace(r[0]) && !IsSpace(r[|r| - 1]))
    ensures var a := Scan.RunEnd(s, 0, Space);
      a + |r| <= |s| && r == s[a..a + |r|] && forall k :: a + |r| <= k < |s| ==> IsSpace(s[k])
  {
    var a := Scan.RunEnd(s, 0, Space);
    var t := s[a..];
    t[..|t| - TrailingSpace(t)]
  }

  /** `s.split("\n")[0]`: everything before the first line feed. */
  function FirstLine(s: string): (r: string)
    ensures '\n' !in r
    ensures r <= s
    ensures r == s || s[|r|] == '\n'
  {
    if s == [] || s[0] == '\n' then [] else [s[0]] + FirstLine(s[1..])
  }

  /** Stripping text that has neither leading nor trailing whitespace changes nothing. */
  lemma StripUnchanged(s: string)
    requires s == [] || (!IsSpace(s[0]) && !IsSpace(s[|s| - 1]))
    ensures Strip(s) == s
  {
  }

  /** Stripping never introduces a character: its result is a piece of its argument. */
  lemma StripKeepsOut(s: string, x: char)
    requires x !in s
    ensures x !in Strip(s)
  {
  }

  /** A text without a line feed is its own first line. */
  lemma FirstLineWhole(s: string)
    requires '\n' !in s
    ensures FirstLine(s) == s
  {
  }

  /** Removing x drops every copy of x and keeps every other character as often as it occurs. */
  lemma {:induction false} RemoveCharCounts(s: string, x: char)
    ensures multiset(RemoveChar(s, x)) == multiset(s)[x := 0]
  {
    if s != [] {
      assert s == [s[0]] + s[1..];
      RemoveCharCounts(s[1..], x);
    }
  }

  /** Removing a character commutes with concatenation. */
  lemma {:induction false} RemoveCharAppend(a: string, b: string, x: char)
    ensures RemoveChar(a + b, x) == RemoveChar(a, x) + RemoveChar(b, x)
  {
    if a == [] {
      assert a + b == b;
    } else {
      assert (a + b)[0] == a[0] && (a + b)[1..] == a[1..] + b;
      RemoveCharAppend(a[1..], b, x);
    }
  }
}
