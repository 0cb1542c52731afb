/**
 * The report outline that `generate_pdf_report` and `generate_docx_report`
 * both produce, as an abstract sequence of entries: title and summary,
 * quantification, scoring, grade legend, a page break, and the detailed
 * section grouped by category. Fonts, spacing, rules and the byte formats
 * are not part of it; the entries record what each format shows.
 */
module Report {
  import opened Wrappers
  import opened Records
  import opened Scoring
  import opened Colours

  /** Which of the two generators produced the outline. */
  datatype Format = Pdf | Docx

  /** A category colour as the format writes it: a hex string (PDF) or an RGB triple (DOCX). */
  datatype Colour = HexColour(hex: string) | RgbColour(rgb: Rgb)

  /** One element of the report, in the order the generators emit them. */
  datatype Entry =
    | Heading(text: string)
    | SummaryText(total: nat, tendency: Option<string>)    // the PDF sentence also names the grade label
    | TotalCount(total: nat)                                  // "Anzahl Aussagen gesamt: {total}"
    | CategoryCount(category: string, colour: Colour, count: nat, percentage: real)
    | ScoreBlock(score: real, grade: string, gradeLabel: string, gradeDescription: string)
    | LegendLine(grade: string, min: real, max: real, name: string)
    | PageBreak
    | GroupHeader(category: string, size: nat, headerColour: Option<Colour>)  // coloured in the DOCX only
    | GroupDescription(text: string)
    | StatementLine(index: nat, symbol: char, colour: Colour, statement: Json)
    | Justification(reason: Json)                              // printed after an en-dash

  /** CATEGORY_DESCRIPTIONS (the generators only look up the five known categories). */
  function CategoryDescription(category: string): string
  {
    match category
    case "FALSCH" => "Objektiv widerlegte Behauptungen. Es liegen belastbare Daten oder Ereignisprotokolle vor, die das Gegenteil zeigen."
    case "DELEGITIMIERUNG" => "Abwertung oder Untergrabung von Personen, Gruppen oder Institutionen. Sprachliche Diskreditierungen, Kampfbegriffe oder systematische Diffamierungen."
    case "VERZERRUNG" => "Formal richtige Kernaussagen, die durch Übertreibung, Verkürzung oder Kontextausblendung ein schiefes Bild erzeugen."
    case "FRAME" => "Sprachliche Deutungsrahmen, die neutrale Sachverhalte emotional oder normativ aufladen."
    case _ => "Sachlich zutreffende Aussagen, die überprüfbar sind und keinen überzogenen Frame, keine Verzerrung oder Delegitimierung enthalten."
  }

  /** The colour a format gives a category's markers. */
  function ColourFor(format: Format, category: string): Colour
  {
    if format == Pdf then HexColour(CategoryHex(category)) else RgbColour(DocxColour(category))
  }

  /** The PDF prints group headers in the plain heading style; the DOCX colours them. */
  function HeaderColour(format: Format, category: string): Option<Colour>
  {
    if format == Pdf then None else Some(ColourFor(format, category))
  }

  /** The marker glyph of a detailed item. */
  function Symbol(category: string): char
  {
    if category == "WAHR" then '✓' else '■'
  }

  /** `count / total * 100`, or 0 when there are no statements (display rounding not modelled). */
  function Percentage(count: nat, total: nat): real
  {
    if total > 0 then count as real / total as real * 100.0 else 0.0
  }

  // ---------------------------------------------------------------------------
  // The outline, section by section
  // ---------------------------------------------------------------------------

  function Opening(summary: Summary, format: Format): seq<Entry>
  {
    [ Heading("Vollständige Auswertung"),
      Heading("Zusammenfassung"),
      SummaryText(summary.totalStatements, if format == Pdf then Some(summary.gradeLabel) else None),
      Heading("Quantifizierung"),
      TotalCount(summary.totalStatements) ]
  }

  /** One quantification line: `counts.get(cat, 0)` and its share of the total. */
  function QuantLine(format: Format, summary: Summary, category: string): Entry
  {
    var count := CountOf(summary.categoryCounts, JStr(category));
    CategoryCount(category, ColourFor(format, category), count, Percentage(count, summary.totalStatements))
  }

  /** The quantification lines of the first `n` categories of the fixed order. */
  function Quantification(format: Format, summary: Summary, n: nat): seq<Entry>
    requires n <= |CategoryOrder|
  {
    if n == 0 then [] else Quantification(format, summary, n - 1) + [QuantLine(format, summary, CategoryOrder[n - 1])]
  }

  function ScoringSection(summary: Summary): seq<Entry>
  {
    [ Heading("Scoring"),
      ScoreBlock(summary.score, summary.grade, summary.gradeLabel, summary.gradeDescription),
      Heading("Einteilung") ]
  }

  /** The legend lines of the first `n` score bands. */
  function Legend(n: nat): seq<Entry>
    requires n <= |ScoreGrades|
  {
    if n == 0 then []
    else
      var b := ScoreGrades[n - 1];
      Legend(n - 1) + [LegendLine(b.grade, b.min, b.max, b.name)]
  }

  const DetailsTitle := "Vollständige Auswertung des Textes"

  /** Everything before the detailed section. */
  function Front(summary: Summary, format: Format): seq<Entry>
  {
    Opening(summary, format) + Quantification(format, summary, |CategoryOrder|)
    + ScoringSection(summary) + Legend(|ScoreGrades|) + [PageBreak, Heading(DetailsTitle)]
  }

  /** The records of one category, in their original order (needs every record to have a category). */
  function Filter(data: seq<Item>, category: string): (items: seq<Item>)
    requires HasAll(data, Kategorie)
    ensures |items| <= |data|
  {
    if data == [] then []
    else (if data[0][Kategorie] == JStr(category) then [data[0]] else []) + Filter(data[1..], category)
  }

  /** `[item for item in data if item['kategorie'] == category]`, which raises on a record without a category. */
  function Members(data: seq<Item>, category: string): (r: Result<seq<Item>, Error>)
    ensures r.Failure? <==> exists i | 0 <= i < |data| :: Kategorie !in data[i]
    ensures r.Failure? ==> r.error == MissingKey(Kategorie)
    ensures r.Success? ==> forall k | 0 <= k < |r.value| :: Kategorie in r.value[k] && r.value[k][Kategorie] == JStr(category)
  {
    if HasAll(data, Kategorie) then
      FilterSpec(data, category);
      Success(Filter(data, category))
    else Failure(MissingKey(Kategorie))
  }

  /**
   * The numbered items of one group: item k (from 1) gives its statement line
   * and its justification line; a record without "aussage" or "begründung"
   * raises.
   */
  function StatementLines(format: Format, category: string, items: seq<Item>): (r: Result<seq<Entry>, Error>)
    ensures r.Failure? ==> r.error == MissingKey(Aussage) || r.error == MissingKey(Begruendung)
    decreases |items|
  {
    if items == [] then Success([])
    else
      var n := |items|;
      var item := items[n - 1];
      match StatementLines(format, category, items[..n - 1])
      case Failure(e) => Failure(e)
      case Success(prev) =>
        if Aussage !in item then Failure(MissingKey(Aussage))
        else if Begruendung !in item then Failure(MissingKey(Begruendung))
        else
          Success(prev + [StatementLine(n, Symbol(category), ColourFor(format, category), item[Aussage]),
                          Justification(item[Begruendung])])
  }

  /** The KeyErrors a generator can raise: a record without one of the three fields it reads. */
  predicate IsFieldError(e: Error)
  {
    e == MissingKey(Kategorie) || e == MissingKey(Aussage) || e == MissingKey(Begruendung)
  }

  /** One category's block: nothing for an empty group, else header, description and items. */
  function GroupBlock(format: Format, data: seq<Item>, category: string): (r: Result<seq<Entry>, Error>)
    ensures r.Failure? ==> IsFieldError(r.error)
    ensures r.Success? ==> HasAll(data, Kategorie)
  {
    match Members(data, category)
    case Failure(e) => Failure(e)
    case Success(items) =>
      if items == [] then Success([])
      else
        match StatementLines(format, category, items)
        case Failure(e) => Failure(e)
        case Success(lines) =>
          Success([GroupHeader(category, |items|, HeaderColour(format, category)),
                   GroupDescription(CategoryDescription(category))] + lines)
  }

  /** The detailed section for the first `n` categories of the fixed order. */
  function Detailed(format: Format, data: seq<Item>, n: nat): (r: Result<seq<Entry>, Error>)
    requires n <= |CategoryOrder|
    ensures r.Failure? ==> IsFieldError(r.error)
    ensures r.Success? && n > 0 ==> HasAll(data, Kategorie)
  {
    if n == 0 then Success([])
    else
      match Detailed(format, data, n - 1)
      case Failure(e) => Failure(e)
      case Success(prev) =>
        match GroupBlock(format, data, CategoryOrder[n - 1])
        case Failure(e) => Failure(e)
        case Success(block) => Success(prev + block)
  }

  /** The outline a generator produces, or the KeyError that stops it. */
  function ReportOf(data: seq<Item>, summary: Summary, format: Format): (r: Result<seq<Entry>, Error>)
    ensures r.Failure? ==> IsFieldError(r.error)
    ensures r.Success? ==> HasAll(data, Kategorie)
  {
    match Detailed(format, data, |CategoryOrder|)
    case Failure(e) => Failure(e)
    case Success(details) => Success(Front(summary, format) + details)
  }

  /** The part of a generator before the page break: summary, the category-line loop, scoring, the legend loop. */
  method EmitFront(summary: Summary, format: Format) returns (elements: seq<Entry>)
    ensures elements == Front(summary, format)
  {
    elements := Opening(summary, format);
    for i := 0 to |CategoryOrder|
      invariant elements == Opening(summary, format) + Quantification(format, summary, i)
    {
      elements := elements + [QuantLine(format, summary, CategoryOrder[i])];
    }
    elements := elements + ScoringSection(summary);
    ghost var beforeLegend := elements;
    for i := 0 to |ScoreGrades|
      invariant elements == beforeLegend + Legend(i)
    {
      var b := ScoreGrades[i];
      elements := elements + [LegendLine(b.grade, b.min, b.max, b.name)];
    }
    elements := elements + [PageBreak, Heading(DetailsTitle)];
  }

  /** The inner `for idx, item in enumerate(cat_items, 1)` loop of one group. */
  method EmitItems(format: Format, category: string, items: seq<Item>) returns (r: Result<seq<Entry>, Error>)
    ensures r == StatementLines(format, category, items)
  {
    var lines := [];
    for idx := 0 to |items|
      invariant StatementLines(format, category, items[..idx]) == Success(lines)
    {
      var item := items[idx];
      StatementLinesStep(format, category, items, idx);
      if Aussage !in item {
        StatementLinesFailurePersists(format, category, items, idx + 1);
        return Failure(MissingKey(Aussage));
      }
      lines := lines + [StatementLine(idx + 1, Symbol(category), ColourFor(format, category), item[Aussage])];
      if Begruendung !in item {
        StatementLinesFailurePersists(format, category, items, idx + 1);
        return Failure(MissingKey(Begruendung));
      }
      var justified := lines + [Justification(item[Begruendung])];
      assert justified == StatementLines(format, category, items[..idx]).value
        + [StatementLine(idx + 1, Symbol(category), ColourFor(format, category), item[Aussage]), Justification(item[Begruendung])];
      lines := justified;
    }
    assert items[..|items|] == items;
    return Success(lines);
  }

  /** One pass of the outer loop: the header, the description and the items of one category. */
  method EmitGroup(format: Format, data: seq<Item>, category: string) returns (r: Result<seq<Entry>, Error>)
    ensures r == GroupBlock(format, data, category)
  {
    var members := Members(data, category);
    if members.Failure? {
      return Failure(members.error);
    }
    var items := members.value;
    if items == [] {
      return Success([]);
    }
    var lines := EmitItems(format, category, items);
    if lines.Failure? {
      return Failure(lines.error);
    }
    return Success([GroupHeader(category, |items|, HeaderColour(format, category)),
                    GroupDescription(CategoryDescription(category))] + lines.value);
  }

  /**
   * `generate_pdf_report` / `generate_docx_report`: the front sections, then
   * the detailed section, one category after the other in the fixed order.
   */
  method GenerateReport(data: seq<Item>, summary: Summary, format: Format) returns (r: Result<seq<Entry>, Error>)
    ensures r == ReportOf(data, summary, format)
  {
    var front := EmitFront(summary, format);
    var details := [];
    for i := 0 to |CategoryOrder|
      invariant Detailed(format, data, i) == Success(details)
    {
      var block := EmitGroup(format, data, CategoryOrder[i]);
      if block.Failure? {
        DetailedFailurePersists(format, data, i + 1, |CategoryOrder|);
        return Failure(block.error);
      }
      DetailedStep(format, data, i, block.value);
      details := details + block.value;
    }
    return Success(front + details);
  }

  // ---------------------------------------------------------------------------
  // Properties of the detailed section
  // ---------------------------------------------------------------------------

  /**
   * A group's items are numbered 1..n in their original order: item k gives a
   * statement line with number k + 1, the category's marker glyph (a check
   * mark exactly for WAHR) and colour, and the statement text, followed by its
   * justification. The group fails exactly when some item lacks "aussage" or
   * "begründung".
   */
  lemma StatementLinesSpec(format: Format, category: string, items: seq<Item>)
    ensures StatementLines(format, category, items).Success? <==>
      forall k | 0 <= k < |items| :: Aussage in items[k] && Begruendung in items[k]
    ensures StatementLines(format, category, items).Success? ==>
      var lines := StatementLines(format, category, items).value;
      && |lines| == 2 * |items|
      && (forall i | 0 <= i < |lines| :: lines[i].StatementLine? || lines[i].Justification?)
      && (forall k | 0 <= k < |items| ::
            && lines[2 * k] == StatementLine(k + 1, Symbol(category), ColourFor(format, category), items[k][Aussage])
            && lines[2 * k + 1] == Justification(items[k][Begruendung]))
      && (forall k | 0 <= k < |items| :: lines[2 * k].symbol == '✓' <==> category == "WAHR")
  {
    StatementLinesSucceed(format, category, items);
    if StatementLines(format, category, items).Success? {
      StatementLinesContent(format, category, items);
    }
  }

  lemma {:induction false} StatementLinesSucceed(format: Format, category: string, items: seq<Item>)
    ensures StatementLines(format, category, items).Success? <==>
      forall k | 0 <= k < |items| :: Aussage in items[k] && Begruendung in items[k]
    decreases |items|
  {
    if items != [] {
      var n := |items|;
      var init := items[..n - 1];
      StatementLinesSucceed(format, category, init);
      assert forall k | 0 <= k < n - 1 :: init[k] == items[k];
    }
  }

  lemma {:induction false} StatementLinesContent(format: Format, category: string, items: seq<Item>)
    requires forall k | 0 <= k < |items| :: Aussage in items[k] && Begruendung in items[k]
    requires StatementLines(format, category, items).Success?
    ensures var lines := StatementLines(format, category, items).value;
      && |lines| == 2 * |items|
      && (forall i | 0 <= i < |lines| :: lines[i].StatementLine? || lines[i].Justification?)
      && (forall k | 0 <= k < |items| ::
            && lines[2 * k] == StatementLine(k + 1, Symbol(category), ColourFor(format, category), items[k][Aussage])
            && lines[2 * k + 1] == Justification(items[k][Begruendung]))
    decreases |items|
  {
    if items != [] {
      var n := |items|;
      var init := items[..n - 1];
      StatementLinesContent(format, category, init);
      assert forall k | 0 <= k < n - 1 :: init[k] == items[k];
      var prev := StatementLines(format, category, init).value;
      var item := items[n - 1];
      assert StatementLines(format, category, items).value
        == prev + [StatementLine(n, Symbol(category), ColourFor(format, category), item[Aussage]),
                   Justification(item[Begruendung])];
    }
  }

  // ---------------------------------------------------------------------------
  // Helper facts about the outline functions
  // ---------------------------------------------------------------------------

  /** How the group's lines grow by one item. */
  lemma StatementLinesStep(format: Format, category: string, items: seq<Item>, idx: nat)
    requires idx < |items|
    requires StatementLines(format, category, items[..idx]).Success?
    ensures Aussage !in items[idx] ==> StatementLines(format, category, items[..idx + 1]) == Failure(MissingKey(Aussage))
    ensures Aussage in items[idx] && Begruendung !in items[idx] ==>
      StatementLines(format, category, items[..idx + 1]) == Failure(MissingKey(Begruendung))
    ensures Aussage in items[idx] && Begruendung in items[idx] ==>
      StatementLines(format, category, items[..idx + 1]) ==
        Success(StatementLines(format, category, items[..idx]).value
          + [StatementLine(idx + 1, Symbol(category), ColourFor(format, category), items[idx][Aussage]),
             Justification(items[idx][Begruendung])])
  {
    assert items[..idx + 1][..idx] == items[..idx];
    assert items[..idx + 1][idx] == items[idx];
  }

  /** How the detailed section grows by one category. */
  lemma DetailedStep(format: Format, data: seq<Item>, i: nat, block: seq<Entry>)
    requires i < |CategoryOrder|
    requires Detailed(format, data, i).Success?
    requires GroupBlock(format, data, CategoryOrder[i]) == Success(block)
    ensures Detailed(format, data, i + 1) == Success(Detailed(format, data, i).value + block)
  {
  }

  /** `Filter` takes the records in order, front to back. */
  lemma FilterCons(data: seq<Item>, category: string)
    requires HasAll(data, Kategorie) && data != []
    ensures Filter(data, category) ==
      (if data[0][Kategorie] == JStr(category) then [data[0]] else []) + Filter(data[1..], category)
  {
  }

  /**
   * Filtering works record by record: the records of a category from `a` come
   * before those from `b`, each part in its own order.
   */
  lemma {:induction false} FilterAppend(a: seq<Item>, b: seq<Item>, category: string)
    requires HasAll(a, Kategorie) && HasAll(b, Kategorie)
    ensures HasAll(a + b, Kategorie)
    ensures Filter(a + b, category) == Filter(a, category) + Filter(b, category)
  {
    assert forall i | 0 <= i < |a + b| :: (a + b)[i] == if i < |a| then a[i] else b[i - |a|];
    if a == [] {
      assert a + b == b;
    } else {
      assert (a + b)[0] == a[0];
      assert (a + b)[1..] == a[1..] + b;
      FilterAppend(a[1..], b, category);
      FilterCons(a + b, category);
      FilterCons(a, category);
      var head := if a[0][Kategorie] == JStr(category) then [a[0]] else [];
      assert head + (Filter(a[1..], category) + Filter(b, category))
          == (head + Filter(a[1..], category)) + Filter(b, category);
    }
  }

  /** A category's records number exactly its occurrences, and each has that category. */
  lemma {:induction false} FilterSpec(data: seq<Item>, category: string)
    requires HasAll(data, Kategorie)
    ensures |Filter(data, category)| == Occurrences(Categories(data), JStr(category))
    ensures forall k | 0 <= k < |Filter(data, category)| ::
      Kategorie in Filter(data, category)[k] && Filter(data, category)[k][Kategorie] == JStr(category)
  {
    if data != [] {
      FilterSpec(data[1..], category);
      FilterCons(data, category);
      assert Categories(data) == [data[0][Kategorie]] + Categories(data[1..]);
      assert Categories(data)[1..] == Categories(data[1..]);
    }
  }

  /** A single record is kept exactly when it has the category. */
  lemma FilterSingle(x: Item, category: string)
    requires Kategorie in x
    ensures Filter([x], category) == if x[Kategorie] == JStr(category) then [x] else []
  {
    assert [x][1..] == [];
  }

  /** Once a prefix of the items fails, the whole group fails with the same error. */
  lemma {:induction false} StatementLinesFailurePersists(format: Format, category: string, items: seq<Item>, n: nat)
    requires n <= |items|
    requires StatementLines(format, category, items[..n]).Failure?
    ensures StatementLines(format, category, items) == StatementLines(format, category, items[..n])
    decreases |items| - n
  {
    if n < |items| {
      assert items[..n + 1][..n] == items[..n];
      StatementLinesFailurePersists(format, category, items, n + 1);
    } else {
      assert items[..n] == items;
    }
  }

  /** Once the detailed section fails for some categories, it fails for all with the same error. */
  lemma {:induction false} DetailedFailurePersists(format: Format, data: seq<Item>, n: nat, m: nat)
    requires n <= m <= |CategoryOrder|
    requires Detailed(format, data, n).Failure?
    ensures Detailed(format, data, m) == Detailed(format, data, n)
    decreases m - n
  {
    if n < m {
      DetailedFailurePersists(format, data, n, m - 1);
    }
  }
}
