/**
 The character classes that the extractor's regular expressions use, on ASCII.
 Python's `\s`, `\d` and `\w` are Unicode-aware; this model keeps their ASCII part.
 */
module Chars {

  /** `\s` and `str.isspace` on ASCII: tab, line feed, vertical tab, form feed,
      carriage return, the four information separators 0x1C-0x1F, and space. */
  predicate IsSpace(c: char) {
    c == ' ' || ('\U{9}' <= c <= '\U{D}') || ('\U{1C}' <= c <= '\U{1F}')
  }

  /** `\d` on ASCII. */
  predicate IsDigit(c: char) {
    '0' <= c <= '9'
  }

  /** `\w` on ASCII: letters, digits and the underscore. */
  predicate IsWord(c: char) {
    ('a' <= c <= 'z') || ('A' <= c <= 'Z') || IsDigit(c) || c == '_'
  }

  /** The currency class `[\$€£]` of the amount pattern. */
  predicate IsCurrency(c: char) {
    c == '$' || c == '\U{20AC}' || c == '\U{A3}'
  }

  /** The separator class `[/\-.]` of the numeric date pattern. */
  predicate IsDateSep(c: char) {
    c == '/' || c == '-' || c == '.'
  }

  /** The repeatable character classes that occur in the patterns. */
  datatype CharClass =
    | Sep           // [:\s]
    | Space         // \s
    | Digit         // \d
    | DigitOrComma  // [\d,]
    | Word          // \w
    | NotNewline    // any character but a line feed
  {
    predicate Holds(c: char) {
      match this
      case Sep => c == ':' || IsSpace(c)
      case Space => IsSpace(c)
      case Digit => IsDigit(c)
      case DigitOrComma => IsDigit(c) || c == ','
      case Word => IsWord(c)
      case NotNewline => c != '\n'
    }
  }

  /** An ASCII letter of either case. */
  predicate IsLetter(c: char) {
    ('a' <= c <= 'z') || ('A' <= c <= 'Z')
  }

  /** ASCII lower-casing, the case folding `re.IGNORECASE` applies here: the result is
      never an upper-case letter. */
  function Lower(c: char): (r: char)
    ensures !('A' <= r <= 'Z')
  {
    if 'A' <= c <= 'Z' then (c as int + 32) as char else c
  }

  /** Lower-casing keeps letters letters, moves an upper-case letter to its lower-case
      partner, and leaves every other character as it is. */
  lemma LowerCases(c: char)
    ensures IsLetter(Lower(c)) <==> IsLetter(c)
    ensures !('A' <= c <= 'Z') ==> Lower(c) == c
    ensures 'A' <= c <= 'Z' ==> Lower(c) as int - c as int == 'a' as int - 'A' as int
  {
  }

  /** Two characters are equal up to ASCII case. */
  predicate FoldEq(a: char, b: char) {
    Lower(a) == Lower(b)
  }

  /** Matching up to case is an equivalence that only relates a letter to itself and its
      other-case partner, and any other character only to itself. */
  lemma FoldEqEquivalence(a: char, b: char, c: char)
    ensures FoldEq(a, a)
    ensures FoldEq(a, b) ==> FoldEq(b, a)
    ensures FoldEq(a, b) && FoldEq(b, c) ==> FoldEq(a, c)
    ensures !IsLetter(a) ==> (FoldEq(a, b) <==> a == b)
    ensures IsLetter(a) && IsLetter(b) ==> (FoldEq(a, b) <==> a == b || a as int - b as int == 32 || b as int - a as int == 32)
  {
  }
}
