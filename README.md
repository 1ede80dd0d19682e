# NEM12 reader — a Dafny model

This project models the core of a reader for AEMO NEM12 interval-metering
files (the record layouts of section 4 of AEMO's *Meter Data File Format
Specification NEM12 & NEM13*, version 2.5), and proves properties of it.
The three parts modelled are:

- **The NEM12 grammar** (`nem12Grammar`, `src/generate.ts`). Its lexer is
  modelled by `Lexer`: `NextToken` picks the rule jison takes in the current
  start condition (`INITIAL` or `PROCESSING`), `LexFrom` applies the rules
  until end of input, and `Tokenize` is the scanning loop with a mode
  variable. A flag chooses how the 200 rule's `^` is read. `LexAsWritten`
  is the lexer as jison runs it: `^` holds at every token start, so any
  field `200` followed by `,` becomes a 200 marker (see Findings). `Lex`,
  `Tokenize` and `Parse` use the corrected rule, where `^` holds only at the
  start of the input, so such a field stays a `String`. The flag is read
  by the 200 rule alone, so the two lexers take different steps only where
  `200,` starts a token that neither opens the input nor follows a line
  break. That is a field `200`, but also the text right after a marker
  code, as in `100200,…` or a line `300200,…`. Its BNF productions and semantic actions are modelled by
  `Grammar`. `Split` cuts the tokens into records, `Decode` applies each
  record type's production with its field count, and `Assemble` nests the
  records. It keeps the production's quirks: lists built by right recursion
  come out in reverse file order, and an absent sub-list is `null`. `Nem12`
  holds the record types of `src/generate.ts:12-73`.
- **The two CSV exports** (`src/output.ts`), modelled by `Output` up to the
  rows handed to the CSV writer:
  - `pad` and the half-hour column labels;
  - the NMI and suffix filters;
  - the additive-unit filter;
  - the 48 half-hour bucket sums of the wide view;
  - the per-interval quality overlay, minute offsets and read values of the
    long view.

  Both exports return nothing as soon as one step throws. The model returns
  the reason as an `ExportError`.
- **The unit tables** (`src/units.ts`), modelled by `Units`. It covers
  `units` and `upper_units_to_uom` and the four lookups, which return `null`
  (here `None`) for an unknown or missing unit.

`JsValues` models the JavaScript values the code handles: `undefined`/`null`
as `None`, `Number(...)` of a field as a `JsNumber` (NaN, -0 or a real), and
`toString` of a small integer. `Sequences` holds general sequence facts.

Where the code departs from the documented NEM12 format, the model follows
the code:

- A 300 record's reading count is chosen by how many fields the record has
  (288, 96 or 48 readings, or the relaxed 48-reading form with four trailing
  fields). The enclosing 200 record's interval length plays no part.
- Quoted fields are never unescaped. The `StringLiteral` rule comes after
  `[^,\r\n]*`, which always matches, so it never fires. No production uses
  `StringLiteral` either.
- An unknown unit is not an error. The lookups return `null`, and the wide
  view silently skips the block.
- The long view does not always succeed. An interval that no 400 record
  covers, or a 200 record without 300 records, makes the whole export
  return nothing. So does an interval length of 0 on a day with 400
  records. On a day without 400 records, a length of 0 makes the export
  never return (see Left out). A length written `-0` is not 0: its days
  give no rows.
- An empty field is `undefined`, not `""`. `Number` of it is NaN, and a NaN
  reading makes `Big` throw in the wide view.

## Model

| member | source | states |
|---|---|---|
| `Lexer.NextToken` | src/generate.ts:81-91 | the token chosen consumes a prefix of the input; `EOF` is returned exactly at end of input; every other token is non-empty and leaves the lexer in `PROCESSING` |
| `Lexer.InitialToken` | src/generate.ts:82-83 | the `INITIAL` rules (100, 200, end of input): the token consumes a prefix of the input, `EOF` comes exactly at end of input, and every other token moves the lexer to `PROCESSING` |
| `Lexer.ProcessingToken` | src/generate.ts:83-90 | the `PROCESSING` rules in order: the token consumes a prefix of the input, `EOF` comes exactly at end of input, and only `EOF` pops back to `INITIAL` |
| `Lexer.Match200` | src/generate.ts:83 | the 200 rule consumes an optional `\r?\n` and `200`, needs a `,` after it, and, when anchored, matches only after a line break or at the start of input |
| `Lexer.LineMarkers` | src/generate.ts:85-88 | the 300, 400, 500 and 900 markers match only directly after `\n` or `\r\n`, and never yield a 100 or 200 marker |
| `Lexer.FieldToken` | src/generate.ts:90 | a `String` is a maximal non-empty run without `,`, `\r` or `\n` |
| `Lexer.InitialTokenShape` | src/generate.ts:82-83 | the first token of an input is the 100 marker with no line break before it, or a 200 marker, which is followed by `,` |
| `Lexer.ProcessingTokenShape` | src/generate.ts:83-90 | after the first token every token is an in-block token (no 100 marker; markers only after `\n` or `\r\n`; non-empty `String`s); a `String` ends at a break or at end of input; a 200 marker is followed by `,` |
| `Lexer.Tokenize` | src/generate.ts:76-92 | the scanning loop with its mode variable returns exactly the tokens of `Lex` (the corrected 200 rule), or the lexical error |
| `Lexer.LexFromRenders` | src/generate.ts:81-91 | lexing loses no character: the tokens' text is the input |
| `Lexer.LexSound` | src/generate.ts:81-91 | with the corrected 200 rule, whatever the lexer returns is a well-lexed stream that renders as the input |
| `Lexer.LexComplete` | src/generate.ts:81-91 | with the corrected 200 rule, every well-lexed stream is what the lexer returns for its text |
| `Lexer.LexCharacterisation` | src/generate.ts:81-91 | with the corrected 200 rule, lexing `input` gives `ts` if and only if `ts` is well lexed and renders as `input`: one leading 100 or 200 marker, later markers only after a line break, no 100 marker after the first token, `EOF` once at the end |
| `Lexer.HundredFieldIsText` | src/generate.ts:82 | in `PROCESSING`, a field holding `100` is an ordinary `String` |
| `Lexer.HundredLineIsError` | src/generate.ts:82-90 | a line starting with `100` after the first record matches no rule, so lexing fails |
| `Lexer.TwoHundredFieldIsMarker` | src/generate.ts:83 | with `^` true at every token start, a field `200` followed by `,` becomes a 200 marker; the anchored rule reads it as a `String` |
| `Lexer.TwoHundredFieldAsWritten` | src/generate.ts:83 | as jison runs the rules, an input that starts with the line `200,200,…` (no header) lexes as marker, `SEP`, marker |
| `Lexer.TwoHundredFieldAnchored` | src/generate.ts:83 | with the anchored rule, the same input lexes as marker, `SEP`, `String "200"` |
| `Lexer.NextFromStr` | src/generate.ts:83-90 | a non-empty run without breaks, ended by a break or end of input, is one `String`; as jison runs the 200 rule this needs the run not to be `200` before `,` |
| `Lexer.HeaderAsWritten` | src/generate.ts:82-90 | as jison runs the rules, a header line `100,v,d,a,b` whose first three fields are not `200` lexes as the 100 marker and four `SEP String` pairs |
| `Lexer.LineTwoHundredStep` | src/generate.ts:83 | after a line break, `200` before `,` is a 200 marker carrying that break, with or without the anchor |
| `Lexer.TwoHundredNmiAsWritten` | src/generate.ts:83 | as jison runs the rules, a header line and then the line `200,200,…` lex as the header tokens, then marker, `SEP`, marker |
| `Grammar.FieldRunSound` | src/generate.ts:212-216 | a run of `SEP Field` pairs is exactly the tokens it took, and it stops only where no `SEP` follows |
| `Grammar.SplitSound` | src/generate.ts:164-216 | whatever `Split` returns is the record sequence whose token stream is the input |
| `Grammar.SplitUnsplit` | src/generate.ts:164-216 | every record sequence is split back out of its own token stream |
| `Grammar.SplitIff` | src/generate.ts:164-216 | a token stream splits into `rs` if and only if it is the token stream of `rs` |
| `Grammar.Decode100` | src/generate.ts:164-167 | a 100 record is accepted exactly with 4 fields and a present date-time field; the fields become version, date-time, from and to |
| `Grammar.Decode200` | src/generate.ts:169-172 | a 200 record is accepted exactly with 9 fields, taken by position: NMI, configuration, register id, suffix, MDM data stream id, meter serial number, unit, `Number` of field 8 as `intervalLength`, and the next read date |
| `Grammar.Decode300` | src/generate.ts:174-191 | a 300 record is accepted exactly with 1+288+5, 1+96+5, 1+48+5 or 1+48+4 fields and a present date; reading j is `Number` of field j+1, then quality method, reason code, description and update time; the MSATS time is absent exactly in the relaxed form |
| `Grammar.Decode400` | src/generate.ts:194-198 | a 400 record is accepted exactly with 5 fields: start, end, quality method, reason code, description |
| `Grammar.Decode500` | src/generate.ts:200-204 | a 500 record is accepted exactly with 4 fields; an empty read time is `''` |
| `Grammar.DecodeKind` | src/generate.ts:164-210 | decoding keeps the record type; a 200, 400, 500 or 900 record fails only with a syntax error (its field count); a 900 record is accepted exactly when it has no fields |
| `Grammar.DecodeAll` | src/generate.ts:164-210 | all records decode, one to one and in order, or one of them fails |
| `Grammar.StoredList` | src/generate.ts:122-134 | a run of 400 or 500 records is `null` when empty, otherwise stored in reverse order (`$2.concat($1)`) |
| `Grammar.GroupRecordsOf` | src/generate.ts:147-161 | a day is a 300 record, its run of 400 records, then its run of 500 records; it has no empty list, and a 500 record never follows it |
| `Grammar.AssembleSound` | src/generate.ts:95-161 | whatever is assembled is a well-formed file whose records, in file order, are the input |
| `Grammar.AssembleComplete` | src/generate.ts:95-161 | every well-formed file is assembled back from its own records |
| `Grammar.AssembleIff` | src/generate.ts:95-161 | records assemble into `f` if and only if `f` is well formed (header exactly with footer, at least one block, every present list non-empty) and the records are `f`'s |
| `Grammar.HeaderIffFirstRecord` | src/generate.ts:95-98 | the header is present exactly when the first record is a 100 record, and the footer exactly when the last is a 900 record |
| `Grammar.StoredInReverse` | src/generate.ts:104-145 | concrete order: NMI blocks stay in file order, while two days of a block and two events of a day come out second first |
| `Grammar.ParseSound` | src/generate.ts:75-217 | with the corrected 200 rule (`Parse` lexes with `Lex`), a text is read into `f` only when `f` is well formed and the text is the rendering of raw records that decode to `f`'s records |
| `Grammar.ParseComplete` | src/generate.ts:75-217 | with the corrected 200 rule, the rendering of well-lexed raw records that decode to a well-formed file's records is read into that file |
| `Grammar.TwoHundredNmiRejected` | src/generate.ts:83 | as jison runs the 200 rule, a file with a 100 header line whose first 200 record has the NMI `200` lexes, but is not read at all |
| `Grammar.ShortSecondRecord` | src/generate.ts:169-172 | a token stream whose second record is a 200 record of one empty field is rejected |
| `Grammar.SplitBefore` | src/generate.ts:164-216 | a record's tokens before another marker split as that record, then the records of the rest |
| `Output.Pad` | src/output.ts:46-50 | the `while` loop that prepends `'0'` returns `Padded(s, size)` |
| `Output.PaddedShape` | src/output.ts:46-50 | the result is `max(|s|, size)` long, ends with `s`, has only `'0'` in front, and is `s` itself when `s` is long enough |
| `Output.PaddedValue` | src/output.ts:46-50 | padding a numeral keeps its value |
| `Output.LabelShape` | src/output.ts:52-54 | a label is 4 characters: the 2-digit hour `floor(i/2) mod 24`, then `30` for odd i and `00` for even i |
| `Output.LabelExamples` | src/output.ts:52-54 | 1 gives `0030`, 13 gives `0630`, 47 gives `2330` and 48 gives `0000` |
| `Output.LabelsDistinct` | src/output.ts:77-79 | the labels of intervals 1 to 48 are pairwise distinct |
| `Output.WideHeader` | src/output.ts:62-79 | the wide header is the 11 fixed columns, then the bucket columns 1 to 48 in order |
| `Output.IntervalIdsDistinct` | src/output.ts:77-79 | the 48 bucket columns have distinct ids, so no bucket overwrites another |
| `Output.IntervalIdNotFixed` | src/output.ts:62-79 | no bucket column has the id of a fixed column |
| `Output.PreFilterMembers` | src/output.ts:83-88 | a block is kept exactly when its NMI equals `args.nmi` (if given) and its suffix equals `args.nmiSuffix` (if given) |
| `Output.PreFilterOrder` | src/output.ts:83-88 | filtering keeps the original order: filtering a concatenation concatenates the filtered parts |
| `Output.PreFilterSingle` | src/output.ts:159-164 | one block is kept or dropped as a whole |
| `Output.AdditiveUomIff` | src/output.ts:91 | a unit is exported exactly when its upper case is the upper-case key of an additive unit; an unknown unit maps to `null` and is dropped |
| `Output.EligibleBlocksIff` | src/output.ts:91 | the additive filter fails exactly when some block has an empty unit (`toUpperCase` throws); otherwise it keeps exactly the additive blocks |
| `Output.CanonicalOfAdditive` | src/output.ts:94-114 | an additive unit has an additive canonical unit, and converting to it leaves a value unchanged (multiplier 1), so MWh and Wh sums are not rescaled |
| `Output.SumReadings` | src/output.ts:114 | the `Big` sum fails exactly when some reading is NaN |
| `Output.BucketFormula` | src/output.ts:110-115 | when `30/length` is a whole number s, bucket k is exactly readings (k-1)·s to k·s-1 |
| `Output.FifteenMinuteBucket` | src/output.ts:110-115 | with 15-minute data, bucket k is readings 2k-2 and 2k-1 |
| `Output.DegenerateLengthBuckets` | src/output.ts:110-114 | an interval length of NaN, 0 or -0 makes every bucket empty, with sum 0 |
| `Output.BucketCells` | src/output.ts:112-115 | the loop over the 48 buckets returns `WideCells`: the canonical value of each bucket's sum, or an error when a bucket holds a NaN reading |
| `Output.BuildWideRow` | src/output.ts:93-117 | the row of one day is `WideRowOf`: block and day fields, the canonical unit, then the bucket cells |
| `Output.WideCellsAreSums` | src/output.ts:94-115 | a row of an additive block has 48 cells, cell k is the raw sum of bucket k, and its `uom` is the additive canonical unit |
| `Output.WideRowFails` | src/output.ts:91-131 | a day's row fails exactly when its block's unit is empty or one of its buckets holds a NaN reading |
| `Output.WideDayRowsIff` | src/output.ts:93-119 | a block gives one row per stored day, in stored order, and fails exactly when one of its days fails |
| `Output.WideBlockRowsIff` | src/output.ts:91-121 | the rows fail exactly when one block fails, and otherwise number one per interval day |
| `Output.WideViewRows` | src/output.ts:83-121 | every wide row passes the filters and has an additive unit; there is one row per interval day of the additive filtered blocks |
| `Output.IntervalCountBounds` | src/output.ts:184 | a positive length x gives n intervals a day with n·x ≤ 1440 < (n+1)·x |
| `Output.IntervalCountExamples` | src/output.ts:184 | 5, 15 and 30 minutes give 288, 96 and 48 rows; NaN, negative lengths and -0 (bound -Infinity) give none; 0 never ends the loop |
| `Output.FirstCovering` | src/output.ts:191 | the index of the first stored event whose range holds i, or the list length when there is none |
| `Output.QualityArray` | src/output.ts:186-201 | the quality loop returns one triple per interval 1 to n, from the first covering event, or fails at the first interval no event covers |
| `Output.UnboundedUncovered` | src/output.ts:190-197 | past every event's end interval no event covers the interval, so an endless quality loop throws |
| `Output.LongRowsForDay` | src/output.ts:168-218 | the two loops of one day return `LongDayRows`: n rows, row i built from quality i, or the error |
| `Output.LongRowTimes` | src/output.ts:203-211 | a day has as many rows as the interval count of its length; row j runs from j·L to (j+1)·L minutes; each row ends where the next starts; the first starts at the date |
| `Output.LongLastRow` | src/output.ts:184-211 | the last row ends within one interval of 1440 minutes, and at exactly 1440 when the length divides the day |
| `Output.LongQualityWithoutEvents` | src/output.ts:207-209 | a day without 400 records gives every row the day's quality method and `null` reason code and description |
| `Output.LongQualityFromEvents` | src/output.ts:188-209 | with 400 records, row j takes its triple from the first stored event covering j+1, and a reason code of 0 becomes `null` |
| `Output.LastEventWins` | src/output.ts:191 | since events are stored reversed, the first stored covering event is the last covering event in the file |
| `Output.LongReadValues` | src/output.ts:212 | row j carries reading j unconverted, and `undefined` past the last reading |
| `Output.LongDayFails` | src/output.ts:184-201 | the loop is endless exactly when the length is +0; a day fails exactly when the loop is endless or some interval has events but no covering event |
| `Output.NegativeZeroLength` | src/output.ts:110-203 | a length of -0 fails neither view: the long view gives the day no rows, and every wide bucket is empty |
| `Output.LongViewFails` | src/output.ts:166-231 | the long export returns nothing exactly when some filtered block has no days or one failing day; a single bad day loses the whole export |
| `Output.LongViewRowsFiltered` | src/output.ts:159-164 | every long row is of the NMI and suffix asked for |
| `Units.UnitNamedIsName` | src/units.ts:1-140 | `units[name]` finds a unit exactly under that unit's own key |
| `Units.UnitFromUpperIsUpperName` | src/units.ts:142-212 | `upper_units_to_uom[key]` finds a unit exactly under its upper-case key |
| `Units.UpperNameIsToUpper` | src/units.ts:142-212 | each upper-case key is the upper case of its unit's name |
| `Units.UpperTableSound` | src/units.ts:142-250 | every name found under an upper-case key is a key of `units` whose upper case is that key |
| `Units.UpperTableComplete` | src/units.ts:142-250 | every unit is found from the upper case of its name |
| `Units.NameInjective` | src/units.ts:1-140 | distinct units have distinct keys |
| `Units.CanonicalIsFixedPoint` | src/units.ts:1-140 | a canonical unit is its own canonical unit, has multiplier 1 and the same additivity as its family |
| `Units.AdditiveIffEnergy` | src/units.ts:1-140 | the additive units are exactly the energy units, whose names end in `h` |
| `Units.CanonicalNameIdempotent` | src/units.ts:214-221 | canonical(canonical(u)) = canonical(u), unknown units included |
| `Units.AdditiveWithinFamily` | src/units.ts:214-241 | additive(canonical(u)) = additive(u) |
| `Units.ConvertScales` | src/units.ts:223-231 | conversion succeeds exactly for known units and multiplies by the unit's multiplier |
| `Units.ConvertCanonicalIsIdentity` | src/units.ts:223-231 | converting to a canonical unit leaves the value unchanged |
| `Units.UnknownUnitIsNone` | src/units.ts:214-241 | a missing or unknown unit gives `null` from the canonical-name, conversion and additivity lookups |
| `Units.UnknownUpperIsNone` | src/units.ts:243-250 | a missing or unknown upper-case key gives `null` |
| `Units.TestedMappings` | tests/units.test.ts:5-82 | the cases of the unit tests: `null` and `xxx` give `null`; `MWh` and `kWh` give `kWh`; Wh scales 123.45 to 0.12345 and MWh to 123450; kWh is the identity; `kWh` is additive, `kW` is not and `xyz` gives `null`; `KWH` gives `kWh` |
| `JsValues.NatString` | src/output.ts:47 | `toString` of a natural number is a non-empty digit string without a leading zero |
| `JsValues.NatStringValue` | src/output.ts:47 | the digits of `toString(n)` read back as n |
| `JsValues.NatStringToNumber` | src/generate.ts:171 | `Number` of the decimal text of n is n, and of `-` followed by it, -n (negative zero when n is 0) |
| `JsValues.ToNumberSignedZero` | src/generate.ts:171 | `-0`, `-00` and `-0.0` are negative zero; `+0` is zero |
| `JsValues.ToNumberNotNumeral` | src/generate.ts:177 | `Number` of text that is not a numeral (`A`, `1.2.3`) is NaN, `Number('')` is 0, and an empty field (`undefined`) is NaN |

## Left out

- Jison's parser generation and the writing of `Parser.js` (`src/generate.ts:222-237`) are code generation and file I/O. The model gives the grammar's language and the tree it builds directly. Jison's LALR tables and its error messages are not modelled.
- `src/parse.ts`, `src/convert.ts`, `src/index.ts` and the demo application are not part of this model. They are the runtime wrapper, the command line and re-exports.
- Luxon dates are not modelled. Date fields are kept as their text, and the `UTC+10` default zone plays no part. `DateTime.fromFormat` throws on an absent value, and that is modelled (`MissingDate` for the 100 date-time and the 300 date). A malformed date gives an invalid `DateTime` rather than an error, and that is not distinguished from a valid one. Long-view timestamps are minute offsets from the interval date.
- CSV stringification, `console` logging and the CSV header titles' role in the writer are not modelled. The header columns are plain sequences of ids and titles.
- Big.js and floating-point arithmetic are modelled as exact reals. This includes the rounding of the 0.001 multipliers. Infinity is not a value of the model. Where it arises from a division by an interval length of 0 or -0, its effect on the loops and slices is modelled directly. Negative zero is kept as a value, but sums and comparisons treat it as 0.
- JsValues.ToNumber: handles the empty string, an optional sign and decimal numerals. Anything else is NaN, including exponents, hexadecimal, surrounding whitespace and `Infinity`, which JavaScript's `Number` would read as numbers.
- Units.UpperChar: upper-cases ASCII letters only, not the rest of Unicode.
- The lookups `units[u]` reach `Object.prototype` members for keys such as `constructor`, which yields `undefined` rather than `null`. The model treats every non-key as unknown. The wide view only passes names that come from the upper-case table, so it is unaffected.
- The `mdmDataStreamIdentifier` field is not carried into the export rows. The rows read it under a misspelt name, so the value is `undefined` in the source's own output.
- Output.LongRowsForDay: an interval length of 0 with no 400 records makes the source loop forever. The model returns the error `NoEnd` instead of diverging.
- The empty match of `[^,\r\n]*` at a line break that starts no marker is modelled as a lexical error. Jison returns an empty `String` without advancing, and the parser then always rejects the input. One consequence, kept in the model: a line break after the final 900 record makes the file unreadable.

## Findings

| source | as written | input that shows it | evidently intended | confidence | as-written member | corrected member |
|---|---|---|---|---|---|---|
| src/generate.ts:83 | jison matches each rule against the remaining input, so `^` in `(\r?\n\|^)200(?=,)` holds at the start of every token; any field that is exactly `200` and followed by `,` becomes a 200 record marker | a file `100,NEM12,…` whose first 200 line is `200,200,E1,…` (NMI `200`), or any 300 record with a reading written `200` | `^` meant start of input, so a 200 marker comes only at the start of the file or after a line break | medium, not executed | `Grammar.TwoHundredNmiRejected` | `Lexer.LexCharacterisation` |
