/**
 * The PDF and the DOCX generator walk the same outline. The DOCX differs only
 * in how it writes colours (RGB triples instead of hex strings), in its
 * summary sentence, which leaves out the tendency clause, and in colouring the
 * group headers. In the abstract outline everything else is the same,
 * including the KeyErrors on missing fields. How each format renders the
 * entries is not part of the outline; in particular the PDF passes the texts
 * through reportlab's paragraph markup, which the DOCX does not.
 */
module Formats {
  import opened Wrappers
  import opened Records
  import opened Colours
  import opened Scoring
  import opened Report
  import opened Outline

  /** A PDF hex colour in the DOCX's RGB form. */
  function ToRgb(c: Colour): Colour
  {
    if c.HexColour? && |c.hex| == 7 then RgbColour(ParseHex(c.hex)) else c
  }

  /** The DOCX counterpart of a PDF entry. */
  function ToDocx(e: Entry): Entry
  {
    match e
    case SummaryText(total, _) => SummaryText(total, None)
    case CategoryCount(category, colour, count, percentage) => CategoryCount(category, ToRgb(colour), count, percentage)
    case GroupHeader(category, size, _) => GroupHeader(category, size, Some(RgbColour(DocxColour(category))))
    case StatementLine(index, symbol, colour, statement) => StatementLine(index, symbol, ToRgb(colour), statement)
    case _ => e
  }

  function ToDocxAll(entries: seq<Entry>): seq<Entry>
  {
    seq(|entries|, i requires 0 <= i < |entries| => ToDocx(entries[i]))
  }

  /** The DOCX counterpart of a PDF outline or of its failure. */
  function ToDocxResult(r: Result<seq<Entry>, Error>): Result<seq<Entry>, Error>
  {
    match r
    case Failure(e) => Failure(e)
    case Success(entries) => Success(ToDocxAll(entries))
  }

  lemma ToDocxAppend(a: seq<Entry>, b: seq<Entry>)
    ensures ToDocxAll(a + b) == ToDocxAll(a) + ToDocxAll(b)
  {
  }

  lemma ToDocxEmpty()
    ensures ToDocxAll([]) == []
  {
  }

  /** The PDF colour of a category, read as RGB, is its DOCX colour. */
  lemma CategoryColourAgrees(category: string)
    ensures ToRgb(ColourFor(Pdf, category)) == ColourFor(Docx, category)
  {
    ColourTablesAgree(category);
  }

  lemma {:induction false} QuantificationFormats(summary: Summary, n: nat)
    requires n <= |CategoryOrder|
    ensures ToDocxAll(Quantification(Pdf, summary, n)) == Quantification(Docx, summary, n)
  {
    if n > 0 {
      QuantificationFormats(summary, n - 1);
      var c := CategoryOrder[n - 1];
      CategoryColourAgrees(c);
      ToDocxAppend(Quantification(Pdf, summary, n - 1), [QuantLine(Pdf, summary, c)]);
    }
  }

  /** The front sections agree, apart from the tendency clause and the colour notation. */
  lemma FrontFormats(summary: Summary)
    ensures ToDocxAll(Front(summary, Pdf)) == Front(summary, Docx)
  {
    var opening := Opening(summary, Pdf);
    var q := Quantification(Pdf, summary, |CategoryOrder|);
    var scoring := ScoringSection(summary);
    var legend := Legend(|ScoreGrades|);
    var tail := [PageBreak, Heading(DetailsTitle)];
    QuantificationFormats(summary, |CategoryOrder|);
    LegendLines(|ScoreGrades|);
    assert ToDocxAll(opening) == Opening(summary, Docx);
    assert ToDocxAll(scoring) == scoring;
    assert ToDocxAll(legend) == legend;
    assert ToDocxAll(tail) == tail;
    ToDocxAppend(opening, q);
    ToDocxAppend(opening + q, scoring);
    ToDocxAppend(opening + q + scoring, legend);
    ToDocxAppend(opening + q + scoring + legend, tail);
  }

  lemma {:induction false} LinesFormats(category: string, items: seq<Item>)
    ensures StatementLines(Docx, category, items) == ToDocxResult(StatementLines(Pdf, category, items))
    decreases |items|
  {
    if items == [] {
      ToDocxEmpty();
    } else {
      var n := |items|;
      LinesFormats(category, items[..n - 1]);
      CategoryColourAgrees(category);
      var prev := StatementLines(Pdf, category, items[..n - 1]);
      var item := items[n - 1];
      if prev.Success? && Aussage in item && Begruendung in item {
        var pair := [StatementLine(n, Symbol(category), ColourFor(Pdf, category), item[Aussage]),
                     Justification(item[Begruendung])];
        ToDocxAppend(prev.value, pair);
        assert ToDocxAll(pair) == [StatementLine(n, Symbol(category), ColourFor(Docx, category), item[Aussage]),
                                   Justification(item[Begruendung])];
      }
    }
  }

  lemma BlockFormats(data: seq<Item>, category: string)
    ensures GroupBlock(Docx, data, category) == ToDocxResult(GroupBlock(Pdf, data, category))
  {
    var members := Members(data, category);
    if members.Success? && members.value == [] {
      ToDocxEmpty();
    } else if members.Success? {
      var items := members.value;
      LinesFormats(category, items);
      var lines := StatementLines(Pdf, category, items);
      if lines.Success? {
        var head := [GroupHeader(category, |items|, None), GroupDescription(CategoryDescription(category))];
        assert GroupBlock(Pdf, data, category) == Success(head + lines.value);
        HeadFormats(category, |items|);
        ToDocxAppend(head, lines.value);
      }
    }
  }

  /** The two header entries of a block, converted. */
  lemma HeadFormats(category: string, size: nat)
    ensures ToDocxAll([GroupHeader(category, size, None), GroupDescription(CategoryDescription(category))])
      == [GroupHeader(category, size, HeaderColour(Docx, category)), GroupDescription(CategoryDescription(category))]
  {
  }

  lemma {:induction false} DetailedFormats(data: seq<Item>, n: nat)
    requires n <= |CategoryOrder|
    ensures Detailed(Docx, data, n) == ToDocxResult(Detailed(Pdf, data, n))
  {
    if n == 0 {
      ToDocxEmpty();
    } else {
      DetailedFormats(data, n - 1);
      var c := CategoryOrder[n - 1];
      BlockFormats(data, c);
      var prev := Detailed(Pdf, data, n - 1);
      var block := GroupBlock(Pdf, data, c);
      if prev.Success? && block.Success? {
        ToDocxAppend(prev.value, block.value);
      }
    }
  }

  /**
   * Both generators produce the same report: the DOCX outline is the PDF
   * outline with each colour written as the RGB triple of the same hex value,
   * the summary sentence without its tendency clause, and the group headers
   * coloured. In the outline they also fail on the same records with the
   * same KeyError; errors raised while rendering the entries are outside it.
   */
  lemma PdfDocxSameContent(data: seq<Item>, summary: Summary)
    ensures ReportOf(data, summary, Docx) == ToDocxResult(ReportOf(data, summary, Pdf))
  {
    DetailedFormats(data, |CategoryOrder|);
    var details := Detailed(Pdf, data, |CategoryOrder|);
    if details.Success? {
      FrontFormats(summary);
      ToDocxAppend(Front(summary, Pdf), details.value);
    }
  }
}
