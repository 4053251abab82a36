# Invoice field extractor

A Dafny model of `extract_info_from_text`, the part of the invoice processor
that turns raw invoice text into a record of four strings: `amount`, `buyer`,
`seller` and `date`. Each field is read from the first match of its own
case-insensitive regular expression and left as `""` when the expression
matches nowhere; the function never fails.

The model has one rule per pattern, `Pattern(labels, tail)`: the label
alternatives (`Total`, `Amount`, ...) and the part after the label (`Tail`).
Every tail is described twice:

- `Tails.Matches` says declaratively which groups the rest of the regular
  expression admits (some way of splitting the text between its parts exists);
- `Tails.Capture` computes the group as Python's backtracking matcher does,
  each greedy quantifier taken as far as it goes.

`CaptureSound` and `CaptureComplete` tie the two together, and `Re.Search` is
`re.search`: positions `0..|text|` from left to right, label alternatives in
their written order. `Re.SearchLeftmost`, `Re.SearchReturns` and
`Re.SearchIsFirstMatch` prove that `Search` returns exactly the match
`re.search` is documented to return. `Re.FirstMatch` describes that match
without running the search. The field lemmas in `Extractor` are stated
against it, and the worked invoices in `Examples` are proved step by step.

Files: `chars.dfy` (character classes), `scan.dfy` (greedy runs, labels),
`pystr.dfy` (`replace`, `strip`, `split("\n")[0]`), `tails.dfy` (the four
tails), `search.dfy` (`re.search`), `extractor.dfy` (the record),
`examples.dfy` (worked invoices).

Behaviour of the code that the model keeps, where it is looser than a reading
of the field descriptions would suggest:

- `[:\s]*` after a label also consumes line feeds. `Bill To:` at the end of a
  line therefore takes the buyer from the next line (`Examples.NextLineExample`).
  Once a label is found, its field is empty exactly when nothing but
  separators follows it up to the end of the text
  (`Extractor.LineAfterBareLabel` and its converse
  `Extractor.EmptyLineOnlyAfterBareLabel`).
- Labels are found inside words: `Fromage Ltd` has seller `age Ltd`
  (`Examples.InWordExample`).
- `\w+` in the textual date admits any word, not only a month name. The
  numeric date `Date` label also matches the `Date` inside `Invoice Date`.
- The amount group `[\d,]+\.?\d*` may consist of commas only, so a stored
  amount may be `""` or `"."`; `Extractor.IsDecimal` allows both.
- Commas are removed anywhere in the number, not only between thousands.

## Model

| member | source | states |
|---|---|---|
| Scan.RunEnd | invoice_processor.py:46 | a greedy `c*` from i stops exactly at the first character outside the class, or at the end |
| Scan.RunUpTo | invoice_processor.py:55 | a greedy `c{m,n}` from i takes at most n characters of the class and stops only at the bound, a character outside the class or the end |
| Scan.RunEndIs | invoice_processor.py:46 | any class run that cannot be extended is the greedy run |
| Scan.RunUpToIs | invoice_processor.py:55 | any bounded class run that cannot be extended is the bounded greedy run |
| Scan.LabelAtLocal | invoice_processor.py:46 | whether a label occurs at a position depends only on the characters it covers, whatever text surrounds them, so labels are found inside words |
| Scan.LabelAtIgnoresCase | invoice_processor.py:48 | under `re.IGNORECASE` a label occurs exactly where its lower-cased spelling occurs |
| Chars.Lower | invoice_processor.py:48 | the case folding never yields an upper-case letter |
| Chars.LowerCases | invoice_processor.py:48 | case folding keeps letters letters, maps each upper-case letter to its lower-case partner and leaves every other character unchanged |
| Chars.FoldEqEquivalence | invoice_processor.py:48 | matching up to case is an equivalence relating a letter only to itself and its other-case partner, and any other character only to itself |
| PyStr.RemoveChar | invoice_processor.py:51 | `replace(",", "")` leaves no comma, keeps every other character and changes nothing in a text without commas |
| PyStr.RemoveCharCounts | invoice_processor.py:51 | `replace(",", "")` keeps every other character exactly as often as it occurs |
| PyStr.RemoveCharAppend | invoice_processor.py:51 | removing commas distributes over concatenation |
| PyStr.Strip | invoice_processor.py:64 | `strip()` returns the piece of its argument between the leading and the trailing whitespace, and that piece neither starts nor ends with whitespace |
| PyStr.StripUnchanged | invoice_processor.py:51 | `strip()` of a text without surrounding whitespace returns it unchanged |
| PyStr.StripKeepsOut | invoice_processor.py:77 | `strip()` adds no character |
| PyStr.FirstLine | invoice_processor.py:77 | `split("\n")[0]` is the prefix up to the first line feed and holds no line feed |
| PyStr.FirstLineWhole | invoice_processor.py:85 | a text without line feed is its own first line |
| Tails.Capture | invoice_processor.py:46 | the group the tail captures after the label lies after the label and inside the text; the line tail always captures, and within one line |
| Tails.NumberEnd | invoice_processor.py:46 | the greedy end of `[\d,]+\.?\d*` lies between the start and the end of the text; with `NumberSound` and `NumberLongest` it is the end of the longest number spelled from the start |
| Tails.NumberSound | invoice_processor.py:46 | the greedy reading of a number spells `[\d,]+\.?\d*` |
| Tails.NumberLongest | invoice_processor.py:46 | no spelling of `[\d,]+\.?\d*` from the same start is longer than the greedy one |
| Tails.CaptureSound | invoice_processor.py:46 | every captured group is admitted by the tail's regular expression |
| Tails.AmountComplete | invoice_processor.py:46 | an admissible amount group exists only where the scanner captures one, at the same start and no longer |
| Tails.NumericDateComplete | invoice_processor.py:55 | an admissible numeric date exists only where the scanner captures one, at the same start and no longer |
| Tails.TextDateComplete | invoice_processor.py:59 | an admissible textual date exists only where the scanner captures one, at the same start and no longer |
| Tails.LineComplete | invoice_processor.py:73 | the captured line group starts no earlier than any admissible one, and is the shortest at its start, as the lazy `(.*?)` makes it |
| Tails.CaptureComplete | invoice_processor.py:82 | whenever a tail admits a group the scanner captures the one Python's matcher returns |
| Re.TryAlternatives | invoice_processor.py:46 | the reported alternative occurs and captures, and every earlier alternative fails at that position |
| Re.MatchAt | invoice_processor.py:45-49 | a match at i starts at i and has its group inside the text |
| Re.Search | invoice_processor.py:45-49 | the reported match is the match at its position, and no position to its left (none at all when nothing is reported) matches |
| Re.MatchAtSound | invoice_processor.py:46 | a reported match is a match of the pattern |
| Re.MatchAtGroup | invoice_processor.py:46 | the reported group is the one its alternative's tail captures |
| Re.MatchAtTakesFirst | invoice_processor.py:46 | a capturing alternative makes the match succeed through it or an earlier one |
| Re.MatchAtComplete | invoice_processor.py:46 | any match at i is found, through the earliest matching alternative, with Python's preferred group |
| Re.SearchFinds | invoice_processor.py:45-49 | any match makes `re.search` report a match no further right |
| Re.SearchLeftmost | invoice_processor.py:45-49 | `re.search` reports a real match, no match starts further left, and at its position it takes the first alternative and Python's group; it reports nothing only when nothing matches |
| Re.OneAlternative | invoice_processor.py:82 | with labels of distinct initials at most one alternative occurs at a position |
| Re.PrefersAntisymmetric | invoice_processor.py:73 | Python's preference between two groups is antisymmetric |
| Re.SearchReturns | invoice_processor.py:45-49 | `re.search` returns exactly the match `FirstMatch` describes |
| Re.SearchIsFirstMatch | invoice_processor.py:45-49 | whatever `re.search` returns satisfies `FirstMatch` |
| Re.SearchNone | invoice_processor.py:50 | `re.search` returns nothing exactly when the pattern matches nowhere |
| Re.NoLabelNoMatch | invoice_processor.py:46 | where no label occurs the pattern does not match |
| Re.SearchSkips | invoice_processor.py:45-49 | the search passes over a stretch of text in which no label can begin |
| Extractor.Group | invoice_processor.py:51 | `match.group(1)` has the group's length and is read from the text in order from the group's start |
| Extractor.SearchedGroup | invoice_processor.py:45-51 | the reported amount, date or line group is admissible for its pattern |
| Extractor.NumberDecimal | invoice_processor.py:51 | a number with its commas removed consists of digits and at most one point |
| Extractor.DecimalUnstripped | invoice_processor.py:51 | stripping such a number changes nothing |
| Extractor.ExtractAmount | invoice_processor.py:45-51 | the amount consists of digits and at most one point |
| Extractor.NumericDateVerbatim | invoice_processor.py:55 | a numeric date group spells a numeric date on its own |
| Extractor.TextDateVerbatim | invoice_processor.py:59 | a textual date group spells a textual date on its own |
| Extractor.DateGroup | invoice_processor.py:63-64 | a reported date group has the shape of its pattern and is left as it is by `strip()` |
| Extractor.ExtractDate | invoice_processor.py:54-64 | the date is empty, a numeric date or a textual date |
| Extractor.LineGroupOneLine | invoice_processor.py:73 | a line group holds no line feed |
| Extractor.ExtractLine | invoice_processor.py:72-78 | buyer and seller hold no line feed and neither start nor end with whitespace |
| Extractor.ExtractInfo | invoice_processor.py:36-87 | the record has the four fields, with the amount, date and line shapes above |
| Extractor.AmountOfSearch | invoice_processor.py:50-51 | the stored amount is the reported group with its commas removed |
| Extractor.DateOfSearch | invoice_processor.py:57-64 | the stored date is the numeric pattern's group, or the textual pattern's only when the numeric one finds nothing |
| Extractor.LineOfSearch | invoice_processor.py:75-78 | the stored buyer or seller is the reported group, stripped |
| Extractor.PatternsHaveDistinctInitials | invoice_processor.py:46 | within each pattern the labels start with different letters |
| Extractor.AmountOfFirstMatch | invoice_processor.py:45-51 | the amount is the leftmost, longest number after an amount label, commas removed; labels without a number are passed over |
| Extractor.AmountWithoutMatch | invoice_processor.py:41 | without an amount match the amount is `""` |
| Extractor.DateOfNumericMatch | invoice_processor.py:54-56 | a numeric date match wins, stored verbatim |
| Extractor.DateOfTextMatch | invoice_processor.py:57-64 | only when no numeric date matches is the first textual date stored |
| Extractor.DateWithoutMatch | invoice_processor.py:63 | without either date match the date is `""` |
| Extractor.LineOfFirstMatch | invoice_processor.py:72-78 | buyer and seller are the first match's group, stripped |
| Extractor.LineWithoutLabel | invoice_processor.py:81-85 | without any label of a line pattern the field is `""` |
| Extractor.LineAfterBareLabel | invoice_processor.py:81-85 | a leftmost label followed only by separators to the end of the text gives `""` |
| Extractor.EmptyLineOnlyAfterBareLabel | invoice_processor.py:81-85 | an empty buyer or seller means no label was found, or only separators follow the reported label up to the end of the text |
| Extractor.EmptyText | invoice_processor.py:41 | empty text gives four empty fields |
| Examples.AmountExample | invoice_processor.py:45-51 | `Total: $1,234.56` gives amount `1234.56` |
| Examples.AmountFallback | invoice_processor.py:45-51 | in `Total: -` then `Amount: 7` the first label is passed over and the amount is `7` |
| Examples.BuyerExample | invoice_processor.py:72-78 | `Bill To: Acme Corp` then `Main St` gives buyer `Acme Corp` |
| Examples.NextLineExample | invoice_processor.py:73 | `Bill To:` then `Acme` gives buyer `Acme` |
| Examples.InWordExample | invoice_processor.py:82 | `Fromage Ltd` gives seller `age Ltd` |
| Examples.BareLabelExample | invoice_processor.py:81-85 | `Vendor:` gives seller `""` |
| Examples.NumericDateFirst | invoice_processor.py:54-62 | `Bill Date: May 1, 2024` then `Date: 5/1/24` gives date `5/1/24` |
| Examples.TextDateFallback | invoice_processor.py:57-64 | `Invoice Date: May 1, 2024` gives date `May 1, 2024` |

## Left out

- Module configuration is not part of this model: `load_dotenv`, the API key check, the request headers and their diagnostic output (invoice_processor.py:12-33) are environment and console I/O.
- `process_invoice_image` (invoice_processor.py:90-136) is a file read, an HTTP request and JSON decoding; it does not call the extractor.
- `store_invoice_data` (invoice_processor.py:139-170) is a database client, an environment lookup and a wall-clock timestamp.
- `main` (invoice_processor.py:173-192) is a file-system check and console output.
- Unicode: `\s`, `\d` and `\w` are modelled by their ASCII members (for `\s`, the ASCII characters `str.isspace` accepts), `re.IGNORECASE` by ASCII case folding, and `strip()` by trimming that ASCII whitespace. Python also matches non-ASCII digits, letters, spaces and case variants (such as the long s for `s`); the model does not.
- The dictionary is modelled as a four-field datatype. Its keys are always inserted in the order `amount`, `buyer`, `seller`, `date` (invoice_processor.py:41), which is the order of the fields of `Extractor.Record`; the filling-in of the fresh dictionary field by field is modelled as building the record in one step.
- The `$` alternative at the end of the line tail is not modelled separately: under `re.DOTALL` it matches only at the end of the text or before a final line feed, and both cases are already covered by `\n` or the end of the text.
- Determinism and idempotence are not stated as lemmas: the extractor is a Dafny function, so equal inputs give equal records by construction.
