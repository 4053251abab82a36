/** The usual optional value. */
module Wrappers {
  datatype Option<+T> = None | Some(value: T)
}

/**
 What each of the extractor's patterns matches after its label.

 Each tail is given twice: `Matches` says, declaratively, which capture groups
 the rest of the regular expression admits (some way of splitting the text
 between its parts exists); `Capture` computes the group the way the regular
 expression engine does, taking every greedy quantifier as far as it goes.
 `CaptureSound` and `CaptureComplete` connect the two: the scanner finds a group
 exactly when one is admissible, and the group it finds is the one Python's
 backtracking matcher returns (`Prefers`).
 */
module Tails {
  import opened Chars
  import opened Scan
  import opened Wrappers

  /** The capture group text[start..end]. */
  datatype Span = Span(start: nat, end: nat)

  /** The part of each pattern that follows its label. */
  datatype Tail =
    | Amount       // [:\s]*[\$€£]?\s*([\d,]+\.?\d*)
    | NumericDate  // [:\s]*(\d{1,2}[/\-.]\d{1,2}[/\-.]\d{2,4})
    | TextDate     // [:\s]*(\w+\s+\d{1,2},\s+\d{4})
    | Line         // [:\s]*(.*?)(?:\n|$)   under re.DOTALL

  /** text[s..e] spells `[\d,]+\.?\d*`. */
  ghost predicate NumberToken(text: string, s: nat, e: nat) {
    s <= e <= |text| &&
    exists m :: s < m <= e && AllIn(text, s, m, DigitOrComma) &&
      (AllIn(text, m, e, Digit) || (m < e && text[m] == '.' && AllIn(text, m + 1, e, Digit)))
  }

  /** text[s..e] spells `\d{1,2}[/\-.]\d{1,2}[/\-.]\d{2,4}`; a and b are the two separators. */
  predicate NumericDateAt(text: string, s: nat, a: nat, b: nat, e: nat) {
    s + 1 <= a <= s + 2 && a + 2 <= b <= a + 3 && b + 3 <= e <= b + 5 && e <= |text| &&
    AllIn(text, s, a, Digit) && IsDateSep(text[a]) &&
    AllIn(text, a + 1, b, Digit) && IsDateSep(text[b]) &&
    AllIn(text, b + 1, e, Digit)
  }

  ghost predicate NumericDateToken(text: string, s: nat, e: nat) {
    exists a, b :: NumericDateAt(text, s, a, b, e)
  }

  /** text[s..e] spells `\w+\s+\d{1,2},\s+\d{4}`; the word ends at w, the day starts at x, the comma is at y. */
  predicate TextDateAt(text: string, s: nat, w: nat, x: nat, y: nat, e: nat) {
    s < w < x && x + 1 <= y <= x + 2 && y + 1 < e - 4 && e <= |text| &&
    AllIn(text, s, w, Word) && AllIn(text, w, x, Space) && AllIn(text, x, y, Digit) &&
    text[y] == ',' && AllIn(text, y + 1, e - 4, Space) && AllIn(text, e - 4, e, Digit)
  }

  ghost predicate TextDateToken(text: string, s: nat, e: nat) {
    exists w, x, y :: TextDateAt(text, s, w, x, y, e)
  }

  /** After the label ends at p, `[:\s]*` takes text[p..c], `[\$€£]?` takes text[c..d], `\s*` takes text[d..s]. */
  predicate AmountLead(text: string, p: nat, c: nat, d: nat, s: nat) {
    p <= c <= d <= s <= |text| && AllIn(text, p, c, Sep) &&
    (d == c || (d == c + 1 && IsCurrency(text[c]))) && AllIn(text, d, s, Space)
  }

  /** The tail t, started right after the label at p, admits the capture group text[s..e]. */
  ghost predicate Matches(t: Tail, text: string, p: nat, s: nat, e: nat) {
    p <= s <= e <= |text| &&
    match t
    case Amount => (exists c, d :: AmountLead(text, p, c, d, s)) && NumberToken(text, s, e)
    case NumericDate => AllIn(text, p, s, Sep) && NumericDateToken(text, s, e)
    case TextDate => AllIn(text, p, s, Sep) && TextDateToken(text, s, e)
    case Line => AllIn(text, p, s, Sep) && (e == |text| || text[e] == '\n')
  }

  /** Python's matcher returns the group g rather than text[s..e]: the greedy tails
      have a single admissible start and keep the longest group there; the lazy line
      tail keeps the latest start (greedy `[:\s]*` goes first) and then the shortest group. */
  predicate Prefers(t: Tail, g: Span, s: nat, e: nat) {
    if t == Line then s < g.start || (s == g.start && g.end <= e)
    else s == g.start && e <= g.end
  }

  /** End of the number `[\d,]+\.?\d*` read greedily from s. */
  function NumberEnd(text: string, s: nat): (e: nat)
    requires s <= |text|
    ensures s <= e <= |text|
  {
    var m := RunEnd(text, s, DigitOrComma);                       // [\d,]+
    var n := if m < |text| && text[m] == '.' then m + 1 else m;   // \.?
    RunEnd(text, n, Digit)                                        // \d*
  }

  /** The group the tail t captures when it starts at p, each quantifier taken greedily. */
  function Capture(t: Tail, text: string, p: nat): (g: Option<Span>)
    requires p <= |text|
    ensures g.Some? ==> p <= g.value.start <= g.value.end <= |text|
    ensures t == Line ==> g.Some? && AllIn(text, g.value.start, g.value.end, NotNewline)
  {
    var q := RunEnd(text, p, Sep);                                // [:\s]*
    match t
    case Amount =>
      var d := if q < |text| && IsCurrency(text[q]) then q + 1 else q;   // [\$€£]?
      var s := RunEnd(text, d, Space);                                   // \s*
      if s < |text| && DigitOrComma.Holds(text[s]) then Some(Span(s, NumberEnd(text, s))) else None
    case NumericDate =>
      var a := RunUpTo(text, q, Digit, 2);                        // \d{1,2}
      if a == q || a == |text| || !IsDateSep(text[a]) then None else
      var b := RunUpTo(text, a + 1, Digit, 2);                    // [/\-.]\d{1,2}
      if b == a + 1 || b == |text| || !IsDateSep(text[b]) then None else
      var e := RunUpTo(text, b + 1, Digit, 4);                    // [/\-.]\d{2,4}
      if e < b + 3 then None else Some(Span(q, e))
    case TextDate =>
      var w := RunEnd(text, q, Word);                             // \w+
      var x := RunEnd(text, w, Space);                            // \s+
      var y := RunUpTo(text, x, Digit, 2);                        // \d{1,2}
      if w == q || x == w || y == x || y == |text| || text[y] != ',' then None else
      var z := RunEnd(text, y + 1, Space);                        // ,\s+
      var e := RunUpTo(text, z, Digit, 4);                        // \d{4}
      if z == y + 1 || e < z + 4 then None else Some(Span(q, e))
    case Line =>
      Some(Span(q, RunEnd(text, q, NotNewline)))                  // (.*?)(?:\n|$)
  }

  /** The greedy number reading spells `[\d,]+\.?\d*`. */
  lemma NumberSound(text: string, s: nat)
    requires s < |text| && DigitOrComma.Holds(text[s])
    ensures NumberToken(text, s, NumberEnd(text, s))
  {
    var m := RunEnd(text, s, DigitOrComma);
    var e := NumberEnd(text, s);
    assert s < m;
    if m < |text| && text[m] == '.' {
      assert m < e && text[m] == '.' && AllIn(text, m + 1, e, Digit);
    } else {
      assert AllIn(text, m, e, Digit);
    }
  }

  /** No spelling of `[\d,]+\.?\d*` from s is longer than the greedy reading. */
  lemma NumberLongest(text: string, s: nat, e: nat)
    requires NumberToken(text, s, e)
    ensures e <= NumberEnd(text, s)
  {
    var m: nat :| s < m <= e && AllIn(text, s, m, DigitOrComma) &&
      (AllIn(text, m, e, Digit) || (m < e && text[m] == '.' && AllIn(text, m + 1, e, Digit)));
    var g := RunEnd(text, s, DigitOrComma);
    RunWithin(text, s, m, DigitOrComma);
    if g < |text| && text[g] == '.' {
      if m == g && m < e && text[m] == '.' {
        RunWithin(text, m + 1, e, Digit);
      }
    } else if !(m < e && text[m] == '.') {
      assert AllIn(text, s, e, DigitOrComma);
      RunWithin(text, s, e, DigitOrComma);
      RunEndIs(text, g, g, Digit);
    }
  }

  /** A group the scanner returns is admissible. */
  lemma CaptureSound(t: Tail, text: string, p: nat)
    requires p <= |text|
    ensures Capture(t, text, p).Some? ==> Matches(t, text, p, Capture(t, text, p).value.start, Capture(t, text, p).value.end)
  {
    var q := RunEnd(text, p, Sep);
    match Capture(t, text, p) {
      case None =>
      case Some(g) =>
        match t
        case Amount =>
          var d := if q < |text| && IsCurrency(text[q]) then q + 1 else q;
          assert AmountLead(text, p, q, d, g.start);
          NumberSound(text, g.start);
        case NumericDate =>
          var a := RunUpTo(text, q, Digit, 2);
          var b := RunUpTo(text, a + 1, Digit, 2);
          assert NumericDateAt(text, q, a, b, g.end);
        case TextDate =>
          var w := RunEnd(text, q, Word);
          var x := RunEnd(text, w, Space);
          var y := RunUpTo(text, x, Digit, 2);
          var z := RunEnd(text, y + 1, Space);
          assert z == g.end - 4;
          assert TextDateAt(text, q, w, x, y, g.end);
        case Line =>
    }
  }
  /** Every admissible amount group starts where the scanner's does and is no longer than it. */
  lemma AmountComplete(text: string, p: nat, s: nat, e: nat)
    requires p <= |text| && Matches(Amount, text, p, s, e)
    ensures Capture(Amount, text, p).Some? && Prefers(Amount, Capture(Amount, text, p).value, s, e)
  {
    var c: nat, d: nat :| AmountLead(text, p, c, d, s);
    var m: nat :| s < m <= e && AllIn(text, s, m, DigitOrComma);
    assert DigitOrComma.Holds(text[s]);
    if d == c {
      assert AllIn(text, p, s, Sep);
      RunEndIs(text, p, s, Sep);
      RunEndIs(text, s, s, Space);
    } else {
      RunEndIs(text, p, c, Sep);
      RunEndIs(text, d, s, Space);
    }
    NumberLongest(text, s, e);
  }

  /** Every admissible numeric date starts where the scanner's does and is no longer than it. */
  lemma NumericDateComplete(text: string, p: nat, s: nat, e: nat)
    requires p <= |text| && Matches(NumericDate, text, p, s, e)
    ensures Capture(NumericDate, text, p).Some? && Prefers(NumericDate, Capture(NumericDate, text, p).value, s, e)
  {
    var a: nat, b: nat :| NumericDateAt(text, s, a, b, e);
    assert IsDigit(text[s]);
    RunEndIs(text, p, s, Sep);
    RunUpToIs(text, s, a, Digit, 2);
    RunUpToIs(text, a + 1, b, Digit, 2);
    RunUpToWithin(text, b + 1, e, Digit, 4);
  }

  /** Every admissible textual date starts where the scanner's does and is no longer than it. */
  lemma TextDateComplete(text: string, p: nat, s: nat, e: nat)
    requires p <= |text| && Matches(TextDate, text, p, s, e)
    ensures Capture(TextDate, text, p).Some? && Prefers(TextDate, Capture(TextDate, text, p).value, s, e)
  {
    var w: nat, x: nat, y: nat :| TextDateAt(text, s, w, x, y, e);
    assert IsWord(text[s]) && IsSpace(text[w]) && IsDigit(text[x]) && IsDigit(text[e - 4]);
    RunEndIs(text, p, s, Sep);
    RunEndIs(text, s, w, Word);
    RunEndIs(text, w, x, Space);
    RunUpToIs(text, x, y, Digit, 2);
    RunEndIs(text, y + 1, e - 4, Space);
    RunUpToWithin(text, e - 4, e, Digit, 4);
  }

  /** Every admissible line group starts no later than the scanner's, and one that starts
      at the same place ends no earlier. */
  lemma LineComplete(text: string, p: nat, s: nat, e: nat)
    requires p <= |text| && Matches(Line, text, p, s, e)
    ensures Capture(Line, text, p).Some? && Prefers(Line, Capture(Line, text, p).value, s, e)
  {
    RunWithin(text, p, s, Sep);
  }

  /** The scanner finds a group whenever the tail admits one, and it is the group Python's matcher returns. */
  lemma CaptureComplete(t: Tail, text: string, p: nat, s: nat, e: nat)
    requires p <= |text| && Matches(t, text, p, s, e)
    ensures Capture(t, text, p).Some? && Prefers(t, Capture(t, text, p).value, s, e)
  {
    match t
    case Amount => AmountComplete(text, p, s, e);
    case NumericDate => NumericDateComplete(text, p, s, e);
    case TextDate => TextDateComplete(text, p, s, e);
    case Line => LineComplete(text, p, s, e);
  }
}
