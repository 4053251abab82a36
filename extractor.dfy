/**
 `extract_info_from_text`: the invoice record built from raw text. Each field
 is read from the first match of its own case-insensitive pattern and left
 empty when the pattern matches nowhere; nothing here can fail.
 */
module Extractor {
  import opened Chars
  import opened Scan
  import opened Tails
  import opened Re
  import opened PyStr
  import opened Wrappers

  /** The dictionary the extractor returns: always exactly these four keys, each a string. */
  datatype Record = Record(amount: string, buyer: string, seller: string, date: string)

  /** `(?:Total|Amount|Balance due|Invoice Total)[:\s]*[\$€£]?\s*([\d,]+\.?\d*)` */
  const AmountPattern := Pattern(["Total", "Amount", "Balance due", "Invoice Total"], Amount)
  /** `Date[:\s]*(\d{1,2}[/\-.]\d{1,2}[/\-.]\d{2,4})` */
  const NumericDatePattern := Pattern(["Date"], NumericDate)
  /** `(?:Invoice Date|Bill Date)[:\s]*(\w+\s+\d{1,2},\s+\d{4})` */
  const TextDatePattern := Pattern(["Invoice Date", "Bill Date"], TextDate)
  /** `Bill To[:\s]*(.*?)(?:\n|$)` */
  const BuyerPattern := Pattern(["Bill To"], Line)
  /** `(?:From|Seller|Vendor)[:\s]*(.*?)(?:\n|$)` */
  const SellerPattern := Pattern(["From", "Seller", "Vendor"], Line)

  /** Digits with at most one decimal point: the form of a stored amount. */
  predicate IsDecimal(r: string) {
    (forall c :: c in r ==> IsDigit(c) || c == '.') && multiset(r)['.'] <= 1
  }

  /** A date of the numeric form, such as `5/1/2024`. */
  ghost predicate IsNumericDate(d: string) {
    NumericDateToken(d, 0, |d|)
  }

  /** A date of the textual form, such as `May 1, 2024`. */
  ghost predicate IsTextDate(d: string) {
    TextDateToken(d, 0, |d|)
  }

  /** Group 1 of a match: `match.group(1)`, as many characters as the group spans, read
      from the text in order from the group's start. */
  function Group(text: string, m: Match): (g: string)
    requires m.group.start <= m.group.end <= |text|
    ensures |g| == m.group.end - m.group.start && g <= text[m.group.start..]
  {
    text[m.group.start..m.group.end]
  }

  /** The reported match is a match of the pattern, so its group is admissible. */
  lemma SearchedGroup(pat: Pattern, text: string)
    requires Search(pat, text, 0).Some?
    ensures var m := Search(pat, text, 0).value;
      MatchesAt(pat, text, m.pos, m.alt, m.group.start, m.group.end)
  {
    MatchAtSound(pat, text, Search(pat, text, 0).value.pos);
  }

  // ---------------------------------------------------------------- amount

  /** Removing the commas from a run of digits and commas leaves digits only. */
  lemma CommasRemoved(t: string)
    requires forall k :: 0 <= k < |t| ==> DigitOrComma.Holds(t[k])
    ensures forall c :: c in RemoveChar(t, ',') ==> IsDigit(c)
  {
    forall c | c in RemoveChar(t, ',') ensures IsDigit(c) {
      var j :| 0 <= j < |t| && t[j] == c;
    }
  }

  /** The part `\.?\d*` of a number: digits, perhaps after one point, and no comma. */
  lemma FractionPart(text: string, m: nat, e: nat)
    requires m <= e <= |text|
    requires AllIn(text, m, e, Digit) || (m < e && text[m] == '.' && AllIn(text, m + 1, e, Digit))
    ensures ',' !in text[m..e] && multiset(text[m..e])['.'] <= 1
    ensures forall c :: c in text[m..e] ==> IsDigit(c) || c == '.'
  {
    if !AllIn(text, m, e, Digit) {
      assert text[m..e] == ['.'] + text[m + 1..e];
      assert '.' !in text[m + 1..e];
    }
  }

  /** A number `[\d,]+\.?\d*` loses its commas and is left with digits and at most one point. */
  lemma NumberDecimal(text: string, s: nat, e: nat)
    requires NumberToken(text, s, e)
    ensures IsDecimal(RemoveChar(text[s..e], ','))
  {
    var m: nat :| s < m <= e && AllIn(text, s, m, DigitOrComma) &&
      (AllIn(text, m, e, Digit) || (m < e && text[m] == '.' && AllIn(text, m + 1, e, Digit)));
    var head, tail := text[s..m], text[m..e];
    assert text[s..e] == head + tail;
    RemoveCharAppend(head, tail, ',');
    CommasRemoved(head);
    FractionPart(text, m, e);
    var a := RemoveChar(head, ',');
    assert '.' !in a;
    assert RemoveChar(text[s..e], ',') == a + tail;
  }

  /** A decimal has no whitespace to strip. */
  lemma DecimalUnstripped(r: string)
    requires IsDecimal(r)
    ensures Strip(r) == r
  {
    if r != [] {
      assert r[0] in r && r[|r| - 1] in r;
    }
    StripUnchanged(r);
  }

  /** `amount`: group 1 of the first amount match without its commas, stripped; `""` without a match. */
  function ExtractAmount(text: string): (amount: string)
    ensures IsDecimal(amount)
  {
    match Search(AmountPattern, text, 0)
    case None => ""
    case Some(m) =>
      SearchedGroup(AmountPattern, text);
      NumberDecimal(text, m.group.start, m.group.end);
      DecimalUnstripped(RemoveChar(Group(text, m), ','));
      Strip(RemoveChar(Group(text, m), ','))
  }

  // ---------------------------------------------------------------- date

  /** A numeric date group, cut out of the text, spells a numeric date on its own. */
  lemma NumericDateVerbatim(text: string, s: nat, e: nat)
    requires NumericDateToken(text, s, e) && s <= e
    ensures IsNumericDate(text[s..e])
  {
    var a: nat, b: nat :| NumericDateAt(text, s, a, b, e);
    AllInSlice(text, s, s, a, e, Digit);
    AllInSlice(text, s, a + 1, b, e, Digit);
    AllInSlice(text, s, b + 1, e, e, Digit);
    assert NumericDateAt(text[s..e], 0, a - s, b - s, e - s);
  }

  /** A textual date group, cut out of the text, spells a textual date on its own. */
  lemma TextDateVerbatim(text: string, s: nat, e: nat)
    requires TextDateToken(text, s, e) && s <= e
    ensures IsTextDate(text[s..e])
  {
    var w: nat, x: nat, y: nat :| TextDateAt(text, s, w, x, y, e);
    AllInSlice(text, s, s, w, e, Word);
    AllInSlice(text, s, w, x, e, Space);
    AllInSlice(text, s, x, y, e, Digit);
    AllInSlice(text, s, y + 1, e - 4, e, Space);
    AllInSlice(text, s, e - 4, e, e, Digit);
    assert TextDateAt(text[s..e], 0, w - s, x - s, y - s, e - s);
  }

  /** The date group reported for either date pattern, and that stripping leaves it as it is. */
  lemma DateGroup(pat: Pattern, text: string)
    requires pat == NumericDatePattern || pat == TextDatePattern
    requires Search(pat, text, 0).Some?
    ensures var g := Group(text, Search(pat, text, 0).value);
      Strip(g) == g && (if pat == NumericDatePattern then IsNumericDate(g) else IsTextDate(g))
  {
    var m := Search(pat, text, 0).value;
    SearchedGroup(pat, text);
    var s, e := m.group.start, m.group.end;
    if pat == NumericDatePattern {
      NumericDateVerbatim(text, s, e);
      var a: nat, b: nat :| NumericDateAt(text, s, a, b, e);
      assert IsDigit(text[s]) && IsDigit(text[e - 1]);
    } else {
      TextDateVerbatim(text, s, e);
      var w: nat, x: nat, y: nat :| TextDateAt(text, s, w, x, y, e);
      assert IsWord(text[s]) && IsDigit(text[e - 1]);
    }
    StripUnchanged(text[s..e]);
  }

  /** `date`: the numeric date pattern is searched first and the textual one only when it finds
      nothing; the group of the match is stored verbatim (stripped); `""` when neither matches. */
  function ExtractDate(text: string): (date: string)
    ensures date == [] || IsNumericDate(date) || IsTextDate(date)
  {
    var numeric := Search(NumericDatePattern, text, 0);
    var found := if numeric.Some? then numeric else Search(TextDatePattern, text, 0);
    match found
    case None => ""
    case Some(m) =>
      DateGroup(if numeric.Some? then NumericDatePattern else TextDatePattern, text);
      Strip(Group(text, m))
  }

  // ---------------------------------------------------------------- buyer and seller

  /** A line group never holds a line feed. */
  lemma LineGroupOneLine(pat: Pattern, text: string)
    requires pat.tail == Line && Search(pat, text, 0).Some?
    ensures '\n' !in Group(text, Search(pat, text, 0).value)
  {
    var m := Search(pat, text, 0).value;
    MatchAtGroup(pat, text, m.pos, m.alt);
    var g := m.group;
    assert AllIn(text, g.start, g.end, NotNewline);
  }

  /** `buyer` and `seller`: the first line of group 1 of the first match, stripped; `""` without a match. */
  function ExtractLine(pat: Pattern, text: string): (r: string)
    requires pat.tail == Line
    ensures '\n' !in r
    ensures r == [] || (!IsSpace(r[0]) && !IsSpace(r[|r| - 1]))
  {
    match Search(pat, text, 0)
    case None => ""
    case Some(m) =>
      LineGroupOneLine(pat, text);
      StripKeepsOut(Group(text, m), '\n');
      FirstLineWhole(Strip(Group(text, m)));
      FirstLine(Strip(Group(text, m)))
  }

  // ---------------------------------------------------------------- the record

  /** `extract_info_from_text(text)`. */
  function ExtractInfo(text: string): (r: Record)
    ensures IsDecimal(r.amount)
    ensures r.date == [] || IsNumericDate(r.date) || IsTextDate(r.date)
    ensures '\n' !in r.buyer && '\n' !in r.seller
    ensures r.buyer == [] || (!IsSpace(r.buyer[0]) && !IsSpace(r.buyer[|r.buyer| - 1]))
    ensures r.seller == [] || (!IsSpace(r.seller[0]) && !IsSpace(r.seller[|r.seller| - 1]))
  {
    Record(
      amount := ExtractAmount(text),
      buyer := ExtractLine(BuyerPattern, text),
      seller := ExtractLine(SellerPattern, text),
      date := ExtractDate(text))
  }

  // ---------------------------------------------------------------- fields from the reported match

  /** The stored amount is the reported group without its commas; stripping it changes nothing. */
  lemma AmountOfSearch(text: string, m: Match)
    requires Search(AmountPattern, text, 0) == Some(m)
    ensures m.group.start <= m.group.end <= |text|
    ensures ExtractAmount(text) == RemoveChar(text[m.group.start..m.group.end], ',')
  {
    SearchedGroup(AmountPattern, text);
    NumberDecimal(text, m.group.start, m.group.end);
    DecimalUnstripped(RemoveChar(text[m.group.start..m.group.end], ','));
  }

  /** A stored date is the reported group verbatim, the numeric pattern taking precedence. */
  lemma DateOfSearch(text: string, m: Match)
    requires Search(NumericDatePattern, text, 0) == Some(m) ||
      (Search(NumericDatePattern, text, 0).None? && Search(TextDatePattern, text, 0) == Some(m))
    ensures m.group.start <= m.group.end <= |text|
    ensures ExtractDate(text) == text[m.group.start..m.group.end]
  {
    if Search(NumericDatePattern, text, 0).Some? {
      DateGroup(NumericDatePattern, text);
    } else {
      DateGroup(TextDatePattern, text);
    }
  }

  /** A stored buyer or seller is the reported group, stripped; taking its first line changes nothing. */
  lemma LineOfSearch(pat: Pattern, text: string, m: Match)
    requires pat.tail == Line && Search(pat, text, 0) == Some(m)
    ensures m.group.start <= m.group.end <= |text|
    ensures ExtractLine(pat, text) == Strip(text[m.group.start..m.group.end])
  {
  }

  // ---------------------------------------------------------------- fields from the first match

  /** Within each pattern, the labels start with different letters. */
  lemma PatternsHaveDistinctInitials()
    ensures DistinctInitials(AmountPattern.labels) && DistinctInitials(NumericDatePattern.labels)
    ensures DistinctInitials(TextDatePattern.labels) && DistinctInitials(BuyerPattern.labels)
    ensures DistinctInitials(SellerPattern.labels)
  {
  }

  /** The amount is group 1 of the first amount match with its commas removed: the leftmost
      position where a label is followed by a number, and the longest number there. A label
      with no number after it is passed over. */
  lemma AmountOfFirstMatch(text: string, i: nat, k: nat, s: nat, e: nat)
    requires FirstMatch(AmountPattern, text, i, k, s, e)
    ensures ExtractAmount(text) == RemoveChar(text[s..e], ',')
  {
    PatternsHaveDistinctInitials();
    SearchReturns(AmountPattern, text, i, k, s, e);
    AmountOfSearch(text, Match(i, k, Span(s, e)));
  }

  /** Without any amount match the amount is empty. */
  lemma AmountWithoutMatch(text: string)
    requires NoMatch(AmountPattern, text)
    ensures ExtractAmount(text) == ""
  {
    SearchNone(AmountPattern, text);
  }

  /** A numeric date match wins over any textual date: the date is its group, verbatim. */
  lemma DateOfNumericMatch(text: string, i: nat, s: nat, e: nat)
    requires FirstMatch(NumericDatePattern, text, i, 0, s, e)
    ensures ExtractDate(text) == text[s..e]
  {
    PatternsHaveDistinctInitials();
    SearchReturns(NumericDatePattern, text, i, 0, s, e);
    DateOfSearch(text, Match(i, 0, Span(s, e)));
  }

  /** Only when no numeric date matches is the textual date pattern consulted. */
  lemma DateOfTextMatch(text: string, i: nat, k: nat, s: nat, e: nat)
    requires NoMatch(NumericDatePattern, text) && FirstMatch(TextDatePattern, text, i, k, s, e)
    ensures ExtractDate(text) == text[s..e]
  {
    PatternsHaveDistinctInitials();
    SearchNone(NumericDatePattern, text);
    SearchReturns(TextDatePattern, text, i, k, s, e);
    DateOfSearch(text, Match(i, k, Span(s, e)));
  }

  /** When neither date pattern matches, the date is empty. */
  lemma DateWithoutMatch(text: string)
    requires NoMatch(NumericDatePattern, text) && NoMatch(TextDatePattern, text)
    ensures ExtractDate(text) == ""
  {
    SearchNone(NumericDatePattern, text);
    SearchNone(TextDatePattern, text);
  }

  /** Buyer and seller are group 1 of the first match, stripped: the separators after the
      leftmost label are skipped, even across lines, and the rest of that line is kept. */
  lemma LineOfFirstMatch(pat: Pattern, text: string, i: nat, k: nat, s: nat, e: nat)
    requires pat.tail == Line && DistinctInitials(pat.labels)
    requires FirstMatch(pat, text, i, k, s, e)
    ensures ExtractLine(pat, text) == Strip(text[s..e])
  {
    SearchReturns(pat, text, i, k, s, e);
    LineOfSearch(pat, text, Match(i, k, Span(s, e)));
  }

  /** With no label of a line pattern anywhere in the text, the field is empty. */
  lemma LineWithoutLabel(pat: Pattern, text: string)
    requires pat.tail == Line
    requires forall i: nat, k: nat :: k < |pat.labels| ==> !LabelAt(text, i, pat.labels[k])
    ensures ExtractLine(pat, text) == ""
  {
    SearchNone(pat, text);
  }

  /** A leftmost label followed only by separators up to the end of the text (such as a text
      ending in `Vendor:`) gives an empty field, not an error. */
  lemma LineAfterBareLabel(pat: Pattern, text: string, i: nat, k: nat)
    requires pat.tail == Line && DistinctInitials(pat.labels)
    requires k < |pat.labels| && LabelAt(text, i, pat.labels[k])
    requires forall j: nat, k': nat :: j < i && k' < |pat.labels| ==> !LabelAt(text, j, pat.labels[k'])
    requires AllIn(text, LabelEnd(pat, i, k), |text|, Sep)
    ensures ExtractLine(pat, text) == ""
  {
    assert MatchesAt(pat, text, i, k, |text|, |text|);
    assert FirstMatch(pat, text, i, k, |text|, |text|);
    LineOfFirstMatch(pat, text, i, k, |text|, |text|);
  }

  /** Conversely, an empty buyer or seller means that no label was found, or that only
      separators follow the reported (leftmost) label up to the end of the text. */
  lemma EmptyLineOnlyAfterBareLabel(pat: Pattern, text: string)
    requires pat.tail == Line && ExtractLine(pat, text) == ""
    ensures Search(pat, text, 0).Some? ==>
      var m := Search(pat, text, 0).value;
      m.alt < |pat.labels| && LabelEnd(pat, m.pos, m.alt) <= |text| &&
      AllIn(text, LabelEnd(pat, m.pos, m.alt), |text|, Sep)
  {
    if Search(pat, text, 0).Some? {
      var m := Search(pat, text, 0).value;
      MatchAtGroup(pat, text, m.pos, m.alt);
      LineOfSearch(pat, text, m);
    }
  }

  /** Empty text gives four empty fields: no label fits in it. */
  lemma EmptyText()
    ensures ExtractInfo("") == Record("", "", "", "")
  {
    forall pat: Pattern, j: nat, k: nat, s: nat, e: nat | DistinctInitials(pat.labels)
      ensures !MatchesAt(pat, "", j, k, s, e)
    {
    }
    PatternsHaveDistinctInitials();
    AmountWithoutMatch("");
    DateWithoutMatch("");
    LineWithoutLabel(BuyerPattern, "");
    LineWithoutLabel(SellerPattern, "");
  }
}
