/**
 * What the two report generators promise about the outline they produce:
 * the fixed layout of the front sections, quantification lines that add up
 * to the total, group headers that agree with the counts, one numbered line
 * per classified statement, the failure cases, and that the PDF and the DOCX
 * outline carry the same content.
 */
module Outline {
  import opened Wrappers
  import opened Records
  import opened Scoring
  import opened Report

  // ---------------------------------------------------------------------------
  // The front sections
  // ---------------------------------------------------------------------------

  /** The five categories as the JSON values the counter uses as keys. */
  const KnownKeys: seq<Json> := seq(|CategoryOrder|, k requires 0 <= k < |CategoryOrder| => JStr(CategoryOrder[k]))

  lemma KnownKeysWhole()
    ensures KnownKeys[..|CategoryOrder|] == KnownKeys
  {
  }

  lemma KnownKeysDistinct()
    ensures Distinct(KnownKeys)
  {
    assert KnownKeys == [JStr("FALSCH"), JStr("DELEGITIMIERUNG"), JStr("VERZERRUNG"), JStr("FRAME"), JStr("WAHR")];
  }

  /** The quantification has one line per category, in the fixed order, with `counts.get(cat, 0)` and its share. */
  lemma {:induction false} QuantificationLines(format: Format, summary: Summary, n: nat)
    requires n <= |CategoryOrder|
    ensures |Quantification(format, summary, n)| == n
    ensures forall k | 0 <= k < n ::
      var line := Quantification(format, summary, n)[k];
      && line.CategoryCount?
      && line.category == CategoryOrder[k]
      && line.colour == ColourFor(format, CategoryOrder[k])
      && line.count == CountOf(summary.categoryCounts, KnownKeys[k])
      && line.percentage == Percentage(line.count, summary.totalStatements)
      && (summary.totalStatements == 0 ==> line.percentage == 0.0)
      && (line.count <= summary.totalStatements ==> 0.0 <= line.percentage <= 100.0)
  {
    if n > 0 {
      QuantificationLines(format, summary, n - 1);
      var line := QuantLine(format, summary, CategoryOrder[n - 1]);
      if line.count <= summary.totalStatements {
        PercentageBounds(line.count, summary.totalStatements);
      }
    }
  }

  /**
   * For the summary of real records, each of the five lines shows a count of at
   * most the total and a percentage between 0 and 100.
   */
  lemma QuantificationPercentages(format: Format, data: seq<Item>)
    requires SummaryOf(data).Success?
    ensures var s := SummaryOf(data).value;
      && |Quantification(format, s, |CategoryOrder|)| == |CategoryOrder|
      && forall k | 0 <= k < |CategoryOrder| ::
        && Quantification(format, s, |CategoryOrder|)[k].CategoryCount?
        && Quantification(format, s, |CategoryOrder|)[k].count <= s.totalStatements
        && 0.0 <= Quantification(format, s, |CategoryOrder|)[k].percentage <= 100.0
  {
    var s := SummaryOf(data).value;
    SummaryCountsBounded(data);
    QuantificationLines(format, s, |CategoryOrder|);
  }

  lemma PercentageBounds(count: nat, total: nat)
    requires count <= total
    ensures 0.0 <= Percentage(count, total) <= 100.0
  {
    if total > 0 {
      assert count as real / total as real <= 1.0;
    }
  }

  /** The legend lists the score bands in the order A to E, each with its bounds and label. */
  lemma {:induction false} LegendLines(n: nat)
    requires n <= |ScoreGrades|
    ensures |Legend(n)| == n
    ensures forall k | 0 <= k < n ::
      Legend(n)[k] == LegendLine(ScoreGrades[k].grade, ScoreGrades[k].min, ScoreGrades[k].max, ScoreGrades[k].name)
  {
    if n > 0 {
      LegendLines(n - 1);
    }
  }

  /** Entries that belong before the page break: no page break, group header or statement line. */
  predicate Preamble(entries: seq<Entry>)
  {
    forall k | 0 <= k < |entries| :: !entries[k].PageBreak? && !entries[k].GroupHeader? && !entries[k].StatementLine?
  }

  lemma PreambleAppend(a: seq<Entry>, b: seq<Entry>)
    requires Preamble(a) && Preamble(b)
    ensures Preamble(a + b)
  {
    assert forall k | |a| <= k < |a + b| :: (a + b)[k] == b[k - |a|];
  }

  /**
   * Layout of everything before the detailed section: twenty entries, the
   * page break second to last and the details title last; no group header and
   * no statement line comes before the page break.
   */
  lemma FrontLayout(summary: Summary, format: Format)
    ensures var front := Front(summary, format);
      && |front| == 20
      && front[18] == PageBreak && front[19] == Heading(DetailsTitle)
      && Preamble(front[..18])
  {
    QuantificationLines(format, summary, |CategoryOrder|);
    LegendLines(|ScoreGrades|);
    var opening := Opening(summary, format);
    var q := Quantification(format, summary, |CategoryOrder|);
    var scoring := ScoringSection(summary);
    var l := Legend(|ScoreGrades|);
    var tail := [PageBreak, Heading(DetailsTitle)];
    assert |opening| == 5 && |scoring| == 3;
    PreambleAppend(opening, q);
    PreambleAppend(opening + q, scoring);
    PreambleAppend(opening + q + scoring, l);
    var head := opening + q + scoring + l;
    assert Front(summary, format) == head + tail;
    assert (head + tail)[..18] == head;
  }

  // ---------------------------------------------------------------------------
  // The quantification adds up
  // ---------------------------------------------------------------------------

  /** Sum of the counts of the category lines. */
  function CountTotal(entries: seq<Entry>): nat
  {
    if entries == [] then 0
    else CountTotal(entries[..|entries| - 1]) + (var e := entries[|entries| - 1]; if e.CategoryCount? then e.count else 0)
  }

  /** Sum of the percentages of the category lines. */
  function ShareTotal(entries: seq<Entry>): real
  {
    if entries == [] then 0.0
    else ShareTotal(entries[..|entries| - 1]) + (var e := entries[|entries| - 1]; if e.CategoryCount? then e.percentage else 0.0)
  }

  lemma PercentageAdds(a: nat, b: nat, total: nat)
    ensures Percentage(a, total) + Percentage(b, total) == Percentage(a + b, total)
  {
    if total > 0 {
      assert a as real / total as real + b as real / total as real == (a + b) as real / total as real;
    }
  }

  lemma {:induction false} SumOccurrencesAppend(keys: seq<Json>, k: Json, cats: seq<Json>)
    ensures SumOccurrences(keys + [k], cats) == SumOccurrences(keys, cats) + Occurrences(cats, k)
  {
    if keys == [] {
      assert [] + [k] == [k];
    } else {
      assert (keys + [k])[1..] == keys[1..] + [k];
      SumOccurrencesAppend(keys[1..], k, cats);
    }
  }

  /** `counts.get(c, 0)` on the counter is the number of occurrences of `c`. */
  lemma CountOfCounter(cats: seq<Json>, c: Json)
    ensures CountOf(CountCategories(cats), c) == Occurrences(cats, c)
  {
  }

  /** The first `n` quantification lines count the records of the first `n` categories. */
  lemma {:induction false} QuantificationTotals(format: Format, summary: Summary, cats: seq<Json>, n: nat)
    requires summary.categoryCounts == CountCategories(cats)
    requires n <= |CategoryOrder|
    ensures CountTotal(Quantification(format, summary, n)) == SumOccurrences(KnownKeys[..n], cats)
  {
    if n == 0 {
      SumOccurrencesNone(cats);
    } else {
      QuantificationTotals(format, summary, cats, n - 1);
      var prev := Quantification(format, summary, n - 1);
      var line := QuantLine(format, summary, CategoryOrder[n - 1]);
      QuantificationLines(format, summary, n - 1);
      assert (prev + [line])[..n - 1] == prev;
      var key := KnownKeys[n - 1];
      CountOfCounter(cats, key);
      TakeSnoc(KnownKeys, n);
      SumOccurrencesAppend(KnownKeys[..n - 1], key, cats);
    }
  }

  /** The percentages of the first `n` lines add up to the share of their summed counts. */
  lemma {:induction false} QuantificationShares(format: Format, summary: Summary, n: nat)
    requires n <= |CategoryOrder|
    ensures ShareTotal(Quantification(format, summary, n))
      == Percentage(CountTotal(Quantification(format, summary, n)), summary.totalStatements)
  {
    if n > 0 {
      QuantificationShares(format, summary, n - 1);
      var prev := Quantification(format, summary, n - 1);
      var line := QuantLine(format, summary, CategoryOrder[n - 1]);
      QuantificationLines(format, summary, n - 1);
      assert Quantification(format, summary, n) == prev + [line];
      ShareStep(prev, line, summary.totalStatements);
    }
  }

  lemma ShareStep(prev: seq<Entry>, line: Entry, total: nat)
    requires line.CategoryCount? && line.percentage == Percentage(line.count, total)
    requires ShareTotal(prev) == Percentage(CountTotal(prev), total)
    ensures ShareTotal(prev + [line]) == Percentage(CountTotal(prev + [line]), total)
  {
    assert (prev + [line])[..|prev|] == prev;
    PercentageAdds(CountTotal(prev), line.count, total);
  }

  lemma TakeSnoc(s: seq<Json>, n: nat)
    requires 0 < n <= |s|
    ensures s[..n] == s[..n - 1] + [s[n - 1]]
  {
  }

  lemma SumOccurrencesNone(cats: seq<Json>)
    ensures SumOccurrences(KnownKeys[..0], cats) == 0
  {
    assert KnownKeys[..0] == [];
  }

  /** Membership in the five keys is exactly being a known category. */
  lemma KnownKeysAreKnown(c: Json)
    ensures c in KnownKeys <==> IsKnownCategory(c)
  {
    if IsKnownCategory(c) {
      var k :| 0 <= k < |CategoryOrder| && CategoryOrder[k] == c.s;
      assert KnownKeys[k] == c;
    }
  }

  /** Over distinct keys, the occurrences add up to all records exactly when every record's category is a key. */
  lemma {:induction false} SumOccurrencesAll(keys: seq<Json>, cats: seq<Json>)
    requires Distinct(keys)
    ensures SumOccurrences(keys, cats) <= |cats|
    ensures SumOccurrences(keys, cats) == |cats| <==> forall i | 0 <= i < |cats| :: cats[i] in keys
    decreases |cats|
  {
    if cats == [] {
      SumOccurrencesEmpty(keys);
    } else {
      var init, x := cats[..|cats| - 1], cats[|cats| - 1];
      assert cats == init + [x];
      SumOccurrencesSnoc(keys, init, x);
      SumOccurrencesAll(keys, init);
      if x in keys {
        DistinctOccursOnce(keys, x);
      }
      assert forall i | 0 <= i < |init| :: init[i] == cats[i];
    }
  }

  /** Counts over categories that are all among the five keys: the lines add up to the total and to 100 %. */
  lemma QuantificationComplete(format: Format, summary: Summary, cats: seq<Json>)
    requires summary.categoryCounts == CountCategories(cats) && summary.totalStatements == |cats|
    requires forall i | 0 <= i < |cats| :: cats[i] in KnownKeys
    ensures CountTotal(Quantification(format, summary, |CategoryOrder|)) == |cats|
    ensures |cats| > 0 ==> ShareTotal(Quantification(format, summary, |CategoryOrder|)) == 100.0
  {
    QuantificationTotals(format, summary, cats, |CategoryOrder|);
    QuantificationShares(format, summary, |CategoryOrder|);
    KnownKeysWhole();
    KnownKeysDistinct();
    SumOccurrencesAll(KnownKeys, cats);
    if |cats| > 0 {
      PercentageWhole(|cats|);
    }
  }

  lemma PercentageWhole(total: nat)
    requires total > 0
    ensures Percentage(total, total) == 100.0
  {
    var t := total as real;
    assert t / t == 1.0;
  }

  /**
   * When every record carries one of the five categories, the five
   * quantification lines count every statement once, and for a non-empty
   * analysis their percentages add up to 100.
   */
  lemma QuantificationAddsUp(format: Format, data: seq<Item>)
    requires HasAll(data, Kategorie)
    requires forall i | 0 <= i < |data| :: IsKnownCategory(data[i][Kategorie])
    ensures SummaryOf(data).Success?
    ensures var s := SummaryOf(data).value;
      && CountTotal(Quantification(format, s, |CategoryOrder|)) == s.totalStatements
      && (s.totalStatements > 0 ==> ShareTotal(Quantification(format, s, |CategoryOrder|)) == 100.0)
  {
    var cats := Categories(data);
    var s := SummaryOf(data).value;
    assert s.categoryCounts == CountCategories(cats) && s.totalStatements == |cats|;
    forall i | 0 <= i < |cats| ensures cats[i] in KnownKeys {
      KnownKeysAreKnown(cats[i]);
    }
    QuantificationComplete(format, s, cats);
  }
}
