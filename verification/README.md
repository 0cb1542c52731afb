# desInfo analysis pipeline in Dafny

`app.py` is a Streamlit front end to the DESINFO classification service. Beneath the user
interface it runs a small, deterministic pipeline, and this project models that pipeline:

- **Statement parsing and batching.** `parse_statements` splits the user's text on `|`, or on
  line breaks when there is no `|`. It strips every piece and drops the empty ones.
  `call_api` joins the statements back with `|` into one query parameter (`statements.dfy`).
- **Response normalisation.** `call_api` sends the query, decodes a list of records and walks
  it in place. Every record without `punkte` receives the weight of its `kategorie` from
  `CATEGORY_POINTS`. A record with neither field raises a KeyError, which turns the whole
  call into a failure (`ingestion.dfy`).
- **Summary and grading.** `calculate_summary` does the following (`scoring.dfy`):
  - counts the categories with a `Counter`;
  - adds up the weights of the categories;
  - divides by the number of records;
  - picks the first band of `SCORE_GRADES` whose closed interval holds the unrounded score,
    or `E` with an empty label and description when none does.
- **Report outline.** `generate_pdf_report` and `generate_docx_report` emit the same logical
  content: a summary, five quantification lines in the fixed category order, the score, a
  five-line grade legend and a page break. A detailed section follows, grouped by category in
  the same order. It skips empty groups, numbers the items of a group from 1, and marks them
  with `✓` for WAHR and `■` otherwise (`report.dfy`).
  - `outline.dfy` and `details.dfy` prove what the outline promises.
  - `formats.dfy` proves that the PDF and DOCX outlines carry the same content, using the two
    colour tables of `colours.dfy`.
  - `pipeline.dfy` connects the pieces.

Records are JSON objects, modelled as `map<string, Json>`. Every Python KeyError becomes a
`Failure(MissingKey(key))` result rather than a precondition. The raw score is an exact
`real`.

The imperative parts of the source are methods proved against the functions that specify
them:
- `BackfillPoints` updates an `array` of records in place;
- `FindGrade` is the band search loop with its `break`;
- `EmitFront`, `EmitItems`, `EmitGroup` and `GenerateReport` are the nested loops that append
  to the report.

The network call is a parameter `service` of `CallApi`. It stands for the HTTP request, the
status check and the JSON decoding.

Three behaviours of the code are easy to misread:
- **Grading.** The grade is chosen from the unrounded score, not from the score rounded to one
  decimal. The bands are not contiguous: a score in one of the gaps (0.4, 0.5), (1.4, 1.5),
  (2.4, 2.5) or (3.4, 3.5) gets grade `E` with an empty label and an empty description, for
  example 9/20 (`Scoring.GapScoreFallsThrough`, `Scoring.FallbackIff`).
- **Category counts.** `category_counts` holds only the categories that occur, unknown labels
  included, rather than all five keys.
- **Point total.** `total_points` is computed from `CATEGORY_POINTS`; the records' own `punkte`
  fields play no part.

## Model

| member | source | states |
|---|---|---|
| Records.CategoryPoints | app.py:37-43 | a category's weight is at most 5, and every label outside the five known categories weighs 0 |
| Records.Categories | app.py:322 | the category list has one entry per record, in record order, each the record's `kategorie` |
| Statements.TrimLeftSpec | app.py:296 | `lstrip` leaves a suffix of the text, the part it drops is all whitespace, and the result starts with a non-space |
| Statements.TrimRightSpec | app.py:296 | `rstrip` leaves a prefix of the text, the part it drops is all whitespace, and the result ends with a non-space |
| Statements.Strip | app.py:296 | the stripped piece starts and ends with a non-space, and it is empty exactly when the piece is all whitespace |
| Statements.StripTrimmed | app.py:296 | stripping an already trimmed string leaves it unchanged |
| Statements.Split | app.py:296 | `split` yields at least one piece, no piece contains the separator, and joining the pieces with the separator rebuilds the text |
| Statements.SplitAvoids | app.py:296 | a character that is the separator, or absent from the text, is absent from every piece |
| Statements.Separator | app.py:295-298 | splitting on the chosen separator never leaves a `\|` inside a piece: either `\|` is the separator, or the text has none |
| Statements.SplitWithoutSeparator | app.py:298 | a text without the separator splits into just itself |
| Statements.SplitPrefix | app.py:296 | splitting `p + sep + t`, where `p` has no separator, gives `p` followed by the pieces of `t` |
| Statements.SplitJoin | app.py:296 | splitting a join of one or more separator-free parts gives the parts back |
| Statements.JoinHasSeparator | app.py:303 | joining two or more statements puts a `\|` in the text, so parsing will split on `\|` |
| Statements.JoinStatements | app.py:303 | the `\|`-joined query of one or more statements without `\|` splits back into exactly those statements |
| Statements.SplitBlankIff | app.py:295-298 | every piece of a split is whitespace-only exactly when the text holds only whitespace and separators |
| Statements.Clean | app.py:296 | the comprehension keeps at most as many statements as there were pieces |
| Statements.Kept | app.py:296 | one piece contributes at most one statement |
| Statements.CleanStatements | app.py:296 | every statement the comprehension keeps is non-empty and trimmed |
| Statements.CleanIdentity | app.py:296 | pieces that are already non-empty and trimmed are kept exactly as they are |
| Statements.CleanAppend | app.py:296 | cleaning works piece by piece, so the statements keep the input order |
| Statements.CleanEmptyIff | app.py:296 | cleaning leaves nothing exactly when every piece is all whitespace |
| Statements.ParseStatements | app.py:293-299 | every parsed statement is non-empty and trimmed |
| Statements.ParseEmptyIff | app.py:293-299 | parsing gives no statements exactly when the text holds only whitespace and `\|` characters, empty text included |
| Statements.SingleStatement | app.py:293-299 | a text without `\|` or a line break is one statement, the stripped text, when it is not blank |
| Statements.ParseJoinRoundTrip | app.py:293-303 | parsing the `\|`-joined batch of non-empty, trimmed, `\|`-free statements gives them back; a single statement must also have no line break |
| Ingestion.BackfillItem | app.py:312-314 | a record without `punkte` gains the weight of its category, a record with `punkte` is unchanged, and no other field changes |
| Ingestion.FirstUnbackfillable | app.py:312-314 | the index of the first record that has neither `punkte` nor `kategorie`; all records before it can be normalised |
| Ingestion.FirstUnbackfillableAt | app.py:312-314 | that index is determined by the records before it and the record at it |
| Ingestion.BackfillPoints | app.py:311-314 | the in-place loop succeeds exactly when no record lacks both fields, and then the array holds the normalised records. On the KeyError, the records before the offending one are already updated and the rest are untouched |
| Ingestion.CallApi | app.py:301-318 | a service failure is reported as an error result; otherwise the result is the normalisation of the decoded records, or the KeyError on `kategorie` |
| Ingestion.BackfillSpec | app.py:311-318 | normalisation fails exactly when some record has neither field, with a KeyError on `kategorie`. Otherwise it keeps the length and the order, adds `punkte` from the category weight only where it is missing, and changes no other field |
| Ingestion.BackfillIdempotent | app.py:312-314 | normalising a normalised list changes nothing |
| Scoring.FindGrade | app.py:327-336 | the band search loop, with its `break`, returns the grade, label and description that `GradeOf` specifies |
| Scoring.GradeIsFirstMatch | app.py:327-336 | the grade is the first band, in A to E order, whose closed interval holds the score, with that band's label and description; if no band does, it is `E` with an empty label and description |
| Scoring.GradeFromIsFirstMatch | app.py:331-336 | the same statement for the search from any band onwards |
| Scoring.BandsDisjoint | app.py:46-52 | the bands ascend and are pairwise disjoint, so at most one band holds a score |
| Scoring.FallbackIff | app.py:46-52 | the search falls through exactly for scores outside [0, 5] or inside one of the four gaps between bands |
| Scoring.TenthsAreGraded | app.py:46-52 | every multiple of 0.1 in [0, 5] lies in a band |
| Scoring.BoundaryGrades | app.py:332 | the bands are closed at both ends: 0.4 gives A, 0.5 gives B, 2.4 gives C, 2.5 gives D, and 5.0 gives E with the label `demokratisch destruktiv` |
| Scoring.GapScoreFallsThrough | app.py:327-336 | the raw score 9/20 gets `E` with an empty label and an empty description |
| Scoring.Occurrences | app.py:322 | a category occurs at most once per record, and it occurs zero times exactly when no record has it |
| Scoring.CountCategories | app.py:322 | the counter has a key for exactly the categories that occur |
| Scoring.TotalPoints | app.py:323 | the point total is at most five times the number of records |
| Scoring.CalculateSummary | app.py:320-346 | the method computes `SummaryOf`, or the KeyError on `kategorie` |
| Scoring.SummaryOf | app.py:320-346 | the summary fails exactly when some record has no `kategorie`, with that KeyError; otherwise its total is the number of records and its points are at most five per record |
| Scoring.SummaryShape | app.py:320-346 | when every record has a category, the summary exists, its total is the number of records, and its counts are the counter of the categories |
| Scoring.CounterKeys | app.py:322 | the counter's keys are exactly the categories some record carries, unknown labels included, each mapped to its positive number of occurrences |
| Scoring.SummaryCountsBounded | app.py:322-324 | no category, known or not, is counted more often than there are records |
| Scoring.CountsSumToTotal | app.py:322-324 | the counts, summed over their keys in any order, equal the number of records |
| Scoring.SumOccurrencesTotal | app.py:322-324 | over distinct keys that cover every category, the occurrences add up to the number of records |
| Scoring.ScoreInRange | app.py:323-336 | the point total lies in [0, 5·total]. The raw score is points/total, or 0 without records, and lies in [0, 5]. The grade is the band search applied to the unrounded score |
| Scoring.ScoreBounds | app.py:325 | a total of at most five points per record gives a raw score in [0, 5] |
| Scoring.SummaryDependsOnlyOnCategories | app.py:320-346 | records with the same categories get the same summary, whatever their other fields, `punkte` included |
| Scoring.EmptySummary | app.py:320-346 | no records: total 0, no counts, 0 points, score 0, grade A with the label `wahr` |
| Scoring.ScenarioFalschFalschWahr | app.py:320-346 | FALSCH, FALSCH, WAHR: 3 records and 10 points give the score 10/3 and grade D, with counts FALSCH 2 and WAHR 1 |
| Scoring.ScenarioFrame | app.py:320-346 | one FRAME record: 1 point, score 1, grade B |
| Scoring.ScenarioUnknown | app.py:320-346 | an unknown label counts towards the total under its own key, adds 0 points and gives grade A |
| Colours.DocxColour | app.py:499-508 | every RGB component lies in 0..255 |
| Colours.HexByte | app.py:348-357 | a byte is written as two hex digits |
| Colours.HexOf | app.py:348-357 | a colour is written as `#` followed by six digits |
| Colours.HexRoundTrip | app.py:348-357 | reading the `#rrggbb` form of a colour gives the colour back |
| Colours.ColourTablesAgree | app.py:348-357 | every category's hex string is the `#rrggbb` form of its RGB triple, and the reverse. This includes the grey #6c757d = (108, 117, 125) that both tables give unknown categories |
| Report.FilterSpec | app.py:473 | a category's records number exactly its occurrences, and each has that category |
| Report.FilterAppend | app.py:473 | the filter of a concatenation is the concatenation of the filters, so records keep their original order |
| Report.FilterSingle | app.py:473 | a single record is kept exactly when its category is the one asked for |
| Report.EmitFront | app.py:411-468 | the appends before the details produce the front sections, `Front`: opening, quantification loop, scoring, legend loop, page break and details title |
| Report.EmitItems | app.py:481-491 | the numbered item loop produces `StatementLines`: the lines, or the KeyError of the first item without `aussage` or `begründung` |
| Report.EmitGroup | app.py:472-493 | one pass of the category loop produces `GroupBlock`: nothing for an empty group, otherwise the header, the description and the items |
| Report.GenerateReport | app.py:359-497 | the generator produces `ReportOf`: the front sections and then the category blocks in the fixed order, or the first KeyError |
| Report.StatementLinesSpec | app.py:481-491 | a group's lines exist exactly when every item has both texts. Item k gives the line numbered k + 1, with the category's colour, its statement and then its justification. The marker is `✓` exactly for WAHR |
| Report.StatementLinesSucceed | app.py:481-491 | a group's lines exist exactly when every item has `aussage` and `begründung` |
| Report.StatementLinesContent | app.py:481-491 | the group has two lines per item: the numbered statement line and then the justification, in item order |
| Report.StatementLinesFailurePersists | app.py:481-491 | once an item raises, the whole group fails with that error |
| Report.Members | app.py:473 | the comprehension raises the `kategorie` KeyError exactly when some record lacks a category; otherwise every record it keeps has the category asked for |
| Report.StatementLines | app.py:481-491 | the item lines fail only with a KeyError on `aussage` or `begründung` |
| Report.GroupBlock | app.py:472-493 | a category's block fails only with a KeyError on one of the three fields read, and exists only when every record has a category |
| Report.Detailed | app.py:470-494 | the detailed section fails only with a KeyError on one of the three fields read; for at least one category it exists only when every record has a category |
| Report.ReportOf | app.py:359-497 | a generator fails only with a KeyError on `kategorie`, `aussage` or `begründung`, and produces a report only when every record has a category |
| Report.DetailedFailurePersists | app.py:472-493 | once one category's block raises, the report fails with that error |
| Outline.QuantificationLines | app.py:437-443 | one quantification line per category, in the fixed order, each with the category's colour, `counts.get(cat, 0)` and the percentage of that count in the total. The percentage is 0 when there are no records; a count of at most the total gives a percentage in [0, 100] |
| Outline.QuantificationPercentages | app.py:437-443 | for the summary of any records, every count is at most the total, so every quantification percentage lies in [0, 100] |
| Outline.PercentageBounds | app.py:440 | a count of at most the total is between 0 and 100 percent of it |
| Outline.LegendLines | app.py:459-460 | the legend lists the five bands from A to E, each with its bounds and label |
| Outline.FrontLayout | app.py:411-468 | the front has twenty entries, with the page break second to last and the details title last; no group header or statement line comes before the page break |
| Outline.QuantificationTotals | app.py:437-443 | the counts of the first n quantification lines add up to the records of the first n categories |
| Outline.QuantificationShares | app.py:437-443 | the percentages of the lines add up to the percentage of their summed counts |
| Outline.SumOccurrencesAll | app.py:322 | over distinct keys, the occurrences add up to at most the number of records, and to all of them exactly when every category is a key |
| Outline.KnownKeysAreKnown | app.py:438 | a category is one of the five quantified keys exactly when it is a known category |
| Outline.QuantificationComplete | app.py:437-443 | when every category is among the five keys, the lines count every record, and their percentages add up to 100 for a non-empty analysis |
| Outline.QuantificationAddsUp | app.py:437-443 | when every record carries a known category, the five lines count each statement once, and their percentages add up to 100 for a non-empty analysis |
| Details.LinesCounts | app.py:481-491 | a group's lines hold no header and exactly one statement line per item |
| Details.BlockCounts | app.py:472-493 | a category's block has one header, sized by the category's occurrences, when it has records and none otherwise; it has that many statement lines |
| Details.DetailedBlocks | app.py:470-494 | a produced detailed section is the blocks of its categories, one after the other |
| Details.ConcatGroups | app.py:470-494 | blocks that each list the group their category calls for list, together, the groups of the counter in the fixed order |
| Details.ConcatLines | app.py:470-494 | blocks that each have one line per record of their category together count the records of those categories |
| Details.DetailedCounts | app.py:470-494 | the first n categories' group headers are those with a non-zero count, in the fixed order, each with its count, and their statement lines count those records |
| Details.FrontCounts | app.py:411-468 | the front sections hold no group header and no statement line |
| Details.ReportCounts | app.py:470-494 | the report's group headers are exactly the categories with a non-zero count, in the fixed order, each sized by its count. It has one statement line per record with a known category, so records with an unknown category appear in no group |
| Details.ClassifiedCount | app.py:470-473 | the records with a known category are all the records exactly when no category is unknown |
| Details.HeadersMatchQuantification | app.py:437-477 | every group header's size is the count its quantification line shows |
| Details.FilterTexts | app.py:473 | a category's filtered records all have both texts exactly when all its records do |
| Details.GroupBlockSucceeds | app.py:472-491 | a category's block is produced exactly when every record of that category has both texts |
| Details.DetailedSucceeds | app.py:470-491 | the detailed section for the first n categories is produced exactly when their records have both texts |
| Details.ReportSucceedsIff | app.py:359-497 | a report is produced exactly when every record has a category and every record with a known category has both texts; a record without a category stops it with that KeyError |
| Details.ScenarioFalschBeforeWahr | app.py:470-491 | for a WAHR record followed by a FALSCH record, both with their texts, either generator produces a report whose groups are FALSCH and then WAHR, one record each, none for the other three categories, and which has two statement lines |
| Details.WahrThenFalsch | app.py:470-491 | the same for any two records with those categories and both texts |
| Formats.CategoryColourAgrees | app.py:348-357 | a category's PDF colour, read as RGB, is its DOCX colour |
| Formats.QuantificationFormats | app.py:525-541 | the DOCX quantification lines are the PDF lines with the colours written as RGB |
| Formats.FrontFormats | app.py:510-558 | the DOCX front sections are the PDF front sections, apart from the tendency clause and the colour notation |
| Formats.LinesFormats | app.py:579-597 | the DOCX item lines, or their error, are those of the PDF with the colours written as RGB |
| Formats.BlockFormats | app.py:563-597 | the DOCX block of a category is the PDF block with a coloured header |
| Formats.DetailedFormats | app.py:561-597 | the DOCX detailed section, or its error, is the PDF section converted |
| Formats.PdfDocxSameContent | app.py:510-602 | both generators produce the same abstract outline, with colours converted, the tendency clause dropped and the DOCX headers coloured; in that outline both stop on the same records with the same KeyError |
| Pipeline.LinesReadOnlyTexts | app.py:481-491 | a group's lines depend only on the statement and justification fields |
| Pipeline.FilterReadsOnlyCategories | app.py:473 | filtering depends only on the categories, and records that agree on the report's fields stay aligned |
| Pipeline.BlockReadsOnlyTexts | app.py:472-493 | a category's block depends only on the category, statement and justification fields |
| Pipeline.DetailedReadsOnlyTexts | app.py:470-494 | the detailed section depends only on those three fields |
| Pipeline.ReportReadsOnlyTexts | app.py:359-497 | a report depends on the records only through their category, statement and justification |
| Pipeline.BackfillKeepsReportFields | app.py:312-314 | normalisation changes none of the fields a report reads |
| Pipeline.BackfillKeepsSummary | app.py:312-323 | the summary of the normalised records is the summary of the records as received |
| Pipeline.BackfillKeepsReport | app.py:312-314 | both reports of the normalised records are those of the records as received |

## Left out

- The Streamlit user interface, CSS, session state and sidebar model selection, including
  `fetch_models` and its filter on `valid`. They are presentation and network glue.
- The HTTP request, timeout, `raise_for_status` and JSON decoding in `call_api`. They are
  external I/O, modelled as the `service` parameter of `CallApi`. Every failure they produce
  becomes a `ServiceError` carrying a message.
- reportlab and python-docx layout: styles, fonts, spacers, rules, page size, the `BytesIO`
  buffers and the colour objects. The model keeps the abstract sequence of entries the two
  generators emit; `model_info` is not used by either generator body.
- reportlab's markup interpretation of statement texts, and the errors it raises, are not
  modelled. The PDF generator embeds `aussage`, `begründung` and the category descriptions in
  `Paragraph` markup, which reportlab parses; the DOCX generator writes them literally.
- `round(desinfo_score, 1)` and the `.0f` display of percentages. They are binary floating
  point; the summary keeps the exact raw score, and the outline shows the exact percentage.
- Timestamped file names from `datetime.now()`, and `debug_log`. They are non-deterministic or
  side effects only.
- JSON values beyond null, booleans, integers and strings are one opaque value `JOther`. The
  model does not capture that Python's `Counter` merges `True` with `1` as keys, or that an
  unhashable category (a list or an object) raises in `CATEGORY_POINTS.get`.
