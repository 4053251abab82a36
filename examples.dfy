/**
 Worked invoices. Each example names the match `re.search` reports, shown one
 step of the scanner at a time, and then the field the extractor stores.

 The step lemmas take the invoice text as a parameter `t` with `requires t ==
 "..."` rather than mentioning the literal directly: on a literal argument the
 verifier unfolds `Search`, `Capture` and `RemoveChar` through every position
 at once and runs out of resources, whereas on `t` it uses only the facts each
 step names. For the same reason the pieces of a text (`FallbackPieces`,
 `BothDatesGroup`, ...) are established in lemmas of their own, going through a
 prefix or a suffix of `t` before taking a slice from its middle.
 */
module Examples {
  import opened Chars
  import opened Scan
  import opened Tails
  import opened Re
  import opened PyStr
  import opened Wrappers
  import opened Extractor

  lemma AmountFound(t: string)
    requires t == "Total: $1,234.56"
    ensures Search(AmountPattern, t, 0) == Some(Match(0, 0, Span(8, 16)))
  {
    RunEndIs(t, 5, 7, Sep);
    RunEndIs(t, 8, 8, Space);
    RunEndIs(t, 8, 13, DigitOrComma);
    RunEndIs(t, 14, 16, Digit);
    assert LabelAt(t, 0, "Total");
  }

  lemma CommasDropped(t: string)
    requires t == "Total: $1,234.56"
    ensures RemoveChar(t[8..16], ',') == "1234.56"
  {
    assert t[8..16] == "1," + "234.56";
    RemoveCharAppend("1,", "234.56", ',');
    assert RemoveChar("1,", ',') == "1";
    assert RemoveChar("234.56", ',') == "234.56";
  }

  /** The currency sign is skipped and the thousands separator dropped. */
  lemma AmountExample()
    ensures ExtractAmount("Total: $1,234.56") == "1234.56"
  {
    var t := "Total: $1,234.56";
    AmountFound(t);
    AmountOfSearch(t, Match(0, 0, Span(8, 16)));
    CommasDropped(t);
  }

  /** At a `Total` followed by no number the amount pattern fails, and the search moves on. */
  lemma NoNumberAfterTotal(t: string)
    requires t == "Total: -\nAmount: 7"
    ensures Search(AmountPattern, t, 0) == Search(AmountPattern, t, 1)
  {
    RunEndIs(t, 5, 7, Sep);
    RunEndIs(t, 7, 7, Space);
    assert Capture(Amount, t, 5).None?;
    assert !FoldEq(t[0 + 0], "Amount"[0]) && !FoldEq(t[0 + 0], "Balance due"[0]) && !FoldEq(t[0 + 0], "Invoice Total"[0]);
    assert MatchAt(AmountPattern, t, 0).None?;
  }

  /** Letters of a label that begin no label where they stand. */
  lemma NoLabelInsideTotal(t: string)
    requires t == "Total: -\nAmount: 7"
    ensures Search(AmountPattern, t, 2) == Search(AmountPattern, t, 4)
  {
    assert !FoldEq(t[2 + 1], "Total"[1]) && !FoldEq(t[3 + 1], "Amount"[1]);
    forall k | 0 <= k < 4 ensures !LabelAt(t, 2, AmountPattern.labels[k]) && !LabelAt(t, 3, AmountPattern.labels[k]) {
      assert !FoldEq(t[2 + 0], AmountPattern.labels[k][0]) || k == 0;
      assert !FoldEq(t[3 + 0], AmountPattern.labels[k][0]) || k == 1;
    }
    NoLabelNoMatch(AmountPattern, t, 2);
    NoLabelNoMatch(AmountPattern, t, 3);
  }

  lemma FallbackPieces(t: string)
    requires t == "Total: -\nAmount: 7"
    ensures |t| == 18 && NoInitialIn(AmountPattern, t[1..2]) && NoInitialIn(AmountPattern, t[4..9])
  {
    var head := t[..9];
    assert head == "Total: -\n";
    assert t[1..2] == head[1..2] == "o";
    assert t[4..9] == head[4..] == "l: -\n";
  }

  lemma FallbackSkip(t: string)
    requires t == "Total: -\nAmount: 7"
    ensures Search(AmountPattern, t, 0) == Search(AmountPattern, t, 9)
  {
    PatternsHaveDistinctInitials();
    FallbackPieces(t);
    NoNumberAfterTotal(t);
    SearchSkips(AmountPattern, t, 1, 2);
    NoLabelInsideTotal(t);
    SearchSkips(AmountPattern, t, 4, 9);
  }

  lemma FallbackCapture(t: string)
    requires t == "Total: -\nAmount: 7"
    ensures Capture(Amount, t, 15) == Some(Span(17, 18))
  {
    RunEndIs(t, 15, 17, Sep);
    RunEndIs(t, 17, 17, Space);
    RunEndIs(t, 17, 18, DigitOrComma);
    RunEndIs(t, 18, 18, Digit);
  }

  lemma FallbackLabel(t: string)
    requires t == "Total: -\nAmount: 7"
    ensures LabelAt(t, 9, "Amount") && !LabelAt(t, 9, "Total")
  {
    var rest := t[9..];
    assert rest == "Amount: 7";
    assert forall k :: 0 <= k < 6 ==> t[9 + k] == rest[k];
    assert !FoldEq(t[9 + 0], "Total"[0]);
  }

  lemma FallbackFound(t: string)
    requires t == "Total: -\nAmount: 7"
    ensures Search(AmountPattern, t, 0) == Some(Match(9, 1, Span(17, 18)))
  {
    FallbackSkip(t);
    FallbackCapture(t);
    FallbackLabel(t);
  }

  lemma FallbackGroup(t: string)
    requires t == "Total: -\nAmount: 7"
    ensures RemoveChar(t[17..18], ',') == "7"
  {
    assert t[17..18] == "7";
  }

  /** A label with no number after it is passed over; a later label supplies the amount. */
  lemma AmountFallback()
    ensures ExtractAmount("Total: -\nAmount: 7") == "7"
  {
    var t := "Total: -\nAmount: 7";
    FallbackFound(t);
    AmountOfSearch(t, Match(9, 1, Span(17, 18)));
    FallbackGroup(t);
  }

  lemma BuyerFound(t: string)
    requires t == "Bill To: Acme Corp\nMain St"
    ensures Search(BuyerPattern, t, 0) == Some(Match(0, 0, Span(9, 18)))
  {
    RunEndIs(t, 7, 9, Sep);
    RunEndIs(t, 9, 18, NotNewline);
    assert LabelAt(t, 0, "Bill To");
  }

  lemma BuyerGroup(t: string)
    requires t == "Bill To: Acme Corp\nMain St"
    ensures Strip(t[9..18]) == "Acme Corp"
  {
    assert t[9..18] == "Acme Corp";
    StripUnchanged(t[9..18]);
  }

  /** The buyer is the rest of the label's line. */
  lemma BuyerExample()
    ensures ExtractLine(BuyerPattern, "Bill To: Acme Corp\nMain St") == "Acme Corp"
  {
    var t := "Bill To: Acme Corp\nMain St";
    BuyerFound(t);
    LineOfSearch(BuyerPattern, t, Match(0, 0, Span(9, 18)));
    BuyerGroup(t);
  }

  lemma NextLineFound(t: string)
    requires t == "Bill To:\nAcme"
    ensures Search(BuyerPattern, t, 0) == Some(Match(0, 0, Span(9, 13)))
  {
    RunEndIs(t, 7, 9, Sep);
    RunEndIs(t, 9, 13, NotNewline);
    assert LabelAt(t, 0, "Bill To");
  }

  lemma NextLineGroup(t: string)
    requires t == "Bill To:\nAcme"
    ensures Strip(t[9..13]) == "Acme"
  {
    assert t[9..13] == "Acme";
    StripUnchanged(t[9..13]);
  }

  /** A line feed right after the label is a separator too: the buyer comes from the next line. */
  lemma NextLineExample()
    ensures ExtractLine(BuyerPattern, "Bill To:\nAcme") == "Acme"
  {
    var t := "Bill To:\nAcme";
    NextLineFound(t);
    LineOfSearch(BuyerPattern, t, Match(0, 0, Span(9, 13)));
    NextLineGroup(t);
  }

  lemma InWordFound(t: string)
    requires t == "Fromage Ltd"
    ensures Search(SellerPattern, t, 0) == Some(Match(0, 0, Span(4, 11)))
  {
    RunEndIs(t, 4, 4, Sep);
    RunEndIs(t, 4, 11, NotNewline);
    assert LabelAt(t, 0, "From");
  }

  lemma InWordGroup(t: string)
    requires t == "Fromage Ltd"
    ensures Strip(t[4..11]) == "age Ltd"
  {
    assert t[4..11] == "age Ltd";
    StripUnchanged(t[4..11]);
  }

  /** Labels are found inside words: `Fromage` reads as the label `From` followed by `age Ltd`. */
  lemma InWordExample()
    ensures ExtractLine(SellerPattern, "Fromage Ltd") == "age Ltd"
  {
    var t := "Fromage Ltd";
    InWordFound(t);
    LineOfSearch(SellerPattern, t, Match(0, 0, Span(4, 11)));
    InWordGroup(t);
  }

  /** A `Date` label followed by a letter starts no numeric date, so the search moves on. */
  lemma NoNumberAfterDate(t: string, i: nat)
    requires i + 7 <= |t| && t[i..i + 7] == "Date: M"
    ensures Search(NumericDatePattern, t, i) == Search(NumericDatePattern, t, i + 1)
  {
    assert t[i + 4] == ':' && t[i + 5] == ' ' && t[i + 6] == 'M';
    RunEndIs(t, i + 4, i + 6, Sep);
    RunUpToIs(t, i + 6, i + 6, Digit, 2);
  }

  /** A piece of text without the letter d, in either case, holds no `Date` label. */
  lemma NoDateInitial(piece: string)
    requires 'd' !in piece && 'D' !in piece
    ensures NoInitialIn(NumericDatePattern, piece)
  {
  }

  lemma BothDatesSlices(t: string)
    requires t == "Bill Date: May 1, 2024\nDate: 5/1/24"
    ensures |t| == 35 && t[0..5] == "Bill " && t[5..12] == "Date: M" && t[6..23] == "ate: May 1, 2024\n"
  {
    var head := t[..23];
    assert head == "Bill Date: May 1, 2024\n";
    assert t[0..5] == head[..5];
    assert t[5..12] == head[5..12];
    assert t[6..23] == head[6..];
  }

  lemma BothDatesPieces(t: string)
    requires t == "Bill Date: May 1, 2024\nDate: 5/1/24"
    ensures |t| == 35 && t[5..12] == "Date: M"
    ensures NoInitialIn(NumericDatePattern, t[0..5]) && NoInitialIn(NumericDatePattern, t[6..23])
  {
    BothDatesSlices(t);
    NoDateInitial(t[0..5]);
    NoDateInitial(t[6..23]);
  }

  lemma BothDatesSkip(t: string)
    requires t == "Bill Date: May 1, 2024\nDate: 5/1/24"
    ensures Search(NumericDatePattern, t, 0) == Search(NumericDatePattern, t, 23)
  {
    BothDatesPieces(t);
    SearchSkips(NumericDatePattern, t, 0, 5);
    NoNumberAfterDate(t, 5);
    SearchSkips(NumericDatePattern, t, 6, 23);
  }

  lemma BothDatesCapture(t: string)
    requires t == "Bill Date: May 1, 2024\nDate: 5/1/24"
    ensures Capture(NumericDate, t, 27) == Some(Span(29, 35))
  {
    RunEndIs(t, 27, 29, Sep);
    RunUpToIs(t, 29, 30, Digit, 2);
    RunUpToIs(t, 31, 32, Digit, 2);
    RunUpToIs(t, 33, 35, Digit, 4);
  }

  lemma BothDatesLabel(t: string)
    requires t == "Bill Date: May 1, 2024\nDate: 5/1/24"
    ensures LabelAt(t, 23, "Date")
  {
    var rest := t[23..];
    assert rest == "Date: 5/1/24";
    assert forall k :: 0 <= k < 4 ==> t[23 + k] == rest[k];
  }

  lemma BothDatesNumeric(t: string)
    requires t == "Bill Date: May 1, 2024\nDate: 5/1/24"
    ensures Search(NumericDatePattern, t, 0) == Some(Match(23, 0, Span(29, 35)))
  {
    BothDatesSkip(t);
    BothDatesCapture(t);
    BothDatesLabel(t);
  }

  lemma BothDatesGroup(t: string)
    requires t == "Bill Date: May 1, 2024\nDate: 5/1/24"
    ensures t[29..35] == "5/1/24"
  {
  }

  /** A numeric date anywhere in the text wins over a textual date that comes earlier. */
  lemma NumericDateFirst()
    ensures ExtractDate("Bill Date: May 1, 2024\nDate: 5/1/24") == "5/1/24"
  {
    var t := "Bill Date: May 1, 2024\nDate: 5/1/24";
    BothDatesNumeric(t);
    DateOfSearch(t, Match(23, 0, Span(29, 35)));
    BothDatesGroup(t);
  }

  lemma TextDateOnlyPieces(t: string)
    requires t == "Invoice Date: May 1, 2024"
    ensures |t| == 25 && t[8..15] == "Date: M"
    ensures NoInitialIn(NumericDatePattern, t[0..8]) && NoInitialIn(NumericDatePattern, t[9..25])
  {
    assert t[0..8] == "Invoice ";
    assert t[9..] == "ate: May 1, 2024";
    assert t[9..25] == t[9..];
    NoDateInitial(t[0..8]);
    NoDateInitial(t[9..25]);
  }

  lemma TextDateOnlyNoNumeric(t: string)
    requires t == "Invoice Date: May 1, 2024"
    ensures Search(NumericDatePattern, t, 0).None?
  {
    TextDateOnlyPieces(t);
    SearchSkips(NumericDatePattern, t, 0, 8);
    NoNumberAfterDate(t, 8);
    SearchSkips(NumericDatePattern, t, 9, 25);
    NoLabelNoMatch(NumericDatePattern, t, 25);
  }
  lemma TextDateOnlyCapture(t: string)
    requires t == "Invoice Date: May 1, 2024"
    ensures Capture(TextDate, t, 12) == Some(Span(14, 25))
  {
    RunEndIs(t, 12, 14, Sep);
    RunEndIs(t, 14, 17, Word);
    RunEndIs(t, 17, 18, Space);
    RunUpToIs(t, 18, 19, Digit, 2);
    RunEndIs(t, 20, 21, Space);
    RunUpToIs(t, 21, 25, Digit, 4);
  }

  lemma TextDateOnlyFound(t: string)
    requires t == "Invoice Date: May 1, 2024"
    ensures Search(TextDatePattern, t, 0) == Some(Match(0, 0, Span(14, 25)))
  {
    TextDateOnlyCapture(t);
    assert LabelAt(t, 0, "Invoice Date");
  }

  lemma TextDateOnlyGroup(t: string)
    requires t == "Invoice Date: May 1, 2024"
    ensures t[14..25] == "May 1, 2024"
  {
  }

  /** Without a numeric date the textual one is stored; `Date` inside `Invoice Date` is followed by no number, so the numeric pattern finds nothing. */
  lemma TextDateFallback()
    ensures ExtractDate("Invoice Date: May 1, 2024") == "May 1, 2024"
  {
    var t := "Invoice Date: May 1, 2024";
    TextDateOnlyNoNumeric(t);
    TextDateOnlyFound(t);
    DateOfSearch(t, Match(0, 0, Span(14, 25)));
    TextDateOnlyGroup(t);
  }

  lemma BareLabelFound(t: string)
    requires t == "Vendor:"
    ensures Search(SellerPattern, t, 0) == Some(Match(0, 2, Span(7, 7)))
  {
    RunEndIs(t, 6, 7, Sep);
    RunEndIs(t, 7, 7, NotNewline);
    assert LabelAt(t, 0, "Vendor");
    assert TryAlternatives(SellerPattern, t, 0, 2) == Some(Match(0, 2, Span(7, 7)));
    assert !FoldEq(t[0 + 0], "From"[0]) && !FoldEq(t[0 + 0], "Seller"[0]);
  }

  /** A label at the very end of the text gives an empty field. */
  lemma BareLabelExample()
    ensures ExtractLine(SellerPattern, "Vendor:") == ""
  {
    var t := "Vendor:";
    BareLabelFound(t);
    LineOfSearch(SellerPattern, t, Match(0, 2, Span(7, 7)));
  }
}
