/**
 * How the pieces fit together: the records `call_api` returns feed both
 * `calculate_summary` and the report generators, and neither reads the
 * "punkte" field that `call_api` fills in. The summary reads only the
 * categories; the reports read only the category, the statement and the
 * justification of each record.
 */
module Pipeline {
  import opened Wrappers
  import opened Records
  import opened Ingestion
  import opened Scoring
  import opened Report

  /** Two records agree on a field: both lack it, or both have it with the same value. */
  predicate AgreeOn(x: Item, y: Item, key: string)
  {
    (key in x <==> key in y) && (key in x ==> x[key] == y[key])
  }

  /** Two records agree on every field a report reads. */
  predicate SameReportFields(x: Item, y: Item)
  {
    AgreeOn(x, y, Kategorie) && AgreeOn(x, y, Aussage) && AgreeOn(x, y, Begruendung)
  }

  /** Two record lists agree record by record on every field a report reads. */
  predicate SameReportData(a: seq<Item>, b: seq<Item>)
  {
    |a| == |b| && forall i | 0 <= i < |a| :: SameReportFields(a[i], b[i])
  }

  lemma {:induction false} LinesReadOnlyTexts(format: Format, category: string, a: seq<Item>, b: seq<Item>)
    requires SameReportData(a, b)
    ensures StatementLines(format, category, a) == StatementLines(format, category, b)
    decreases |a|
  {
    if a != [] {
      var n := |a|;
      assert SameReportData(a[..n - 1], b[..n - 1]);
      LinesReadOnlyTexts(format, category, a[..n - 1], b[..n - 1]);
      assert SameReportFields(a[n - 1], b[n - 1]);
    }
  }

  lemma {:induction false} FilterReadsOnlyCategories(a: seq<Item>, b: seq<Item>, category: string)
    requires SameReportData(a, b)
    requires HasAll(a, Kategorie) && HasAll(b, Kategorie)
    ensures SameReportData(Filter(a, category), Filter(b, category))
  {
    if a != [] {
      assert SameReportData(a[1..], b[1..]) by {
        assert forall i | 0 <= i < |a| - 1 :: a[1..][i] == a[i + 1] && b[1..][i] == b[i + 1];
      }
      FilterReadsOnlyCategories(a[1..], b[1..], category);
      assert SameReportFields(a[0], b[0]);
      var restA, restB := Filter(a[1..], category), Filter(b[1..], category);
      FilterCons(a, category);
      FilterCons(b, category);
      if a[0][Kategorie] == JStr(category) {
        SameReportDataCons(a[0], restA, b[0], restB);
      } else {
        assert [] + restA == restA && [] + restB == restB;
      }
    }
  }

  lemma SameReportDataCons(x: Item, restA: seq<Item>, y: Item, restB: seq<Item>)
    requires SameReportFields(x, y) && SameReportData(restA, restB)
    ensures SameReportData([x] + restA, [y] + restB)
  {
    forall k | 0 <= k < |restA| + 1 ensures SameReportFields(([x] + restA)[k], ([y] + restB)[k]) {
      if k > 0 {
        assert ([x] + restA)[k] == restA[k - 1] && ([y] + restB)[k] == restB[k - 1];
      }
    }
  }

  lemma BlockReadsOnlyTexts(format: Format, a: seq<Item>, b: seq<Item>, category: string)
    requires SameReportData(a, b)
    ensures GroupBlock(format, a, category) == GroupBlock(format, b, category)
  {
    assert HasAll(a, Kategorie) <==> HasAll(b, Kategorie) by {
      assert forall i | 0 <= i < |a| :: SameReportFields(a[i], b[i]);
    }
    if HasAll(a, Kategorie) {
      FilterReadsOnlyCategories(a, b, category);
      LinesReadOnlyTexts(format, category, Filter(a, category), Filter(b, category));
    }
  }

  lemma {:induction false} DetailedReadsOnlyTexts(format: Format, a: seq<Item>, b: seq<Item>, n: nat)
    requires SameReportData(a, b)
    requires n <= |CategoryOrder|
    ensures Detailed(format, a, n) == Detailed(format, b, n)
  {
    if n > 0 {
      DetailedReadsOnlyTexts(format, a, b, n - 1);
      BlockReadsOnlyTexts(format, a, b, CategoryOrder[n - 1]);
    }
  }

  /** A report depends on the records only through their category, statement and justification. */
  lemma ReportReadsOnlyTexts(a: seq<Item>, b: seq<Item>, summary: Summary, format: Format)
    requires SameReportData(a, b)
    ensures ReportOf(a, summary, format) == ReportOf(b, summary, format)
  {
    DetailedReadsOnlyTexts(format, a, b, |CategoryOrder|);
  }

  /** Backfilling touches only "punkte": every field a report reads is as it was. */
  lemma BackfillKeepsReportFields(data: seq<Item>)
    requires Backfilled(data).Success?
    ensures SameReportData(Backfilled(data).value, data)
  {
    var out := Backfilled(data).value;
    forall i | 0 <= i < |data| ensures SameReportFields(out[i], data[i]) {
      assert out[i] == BackfillItem(data[i]);
    }
  }

  /** The summary of the backfilled records is the summary of the records as the service sent them. */
  lemma BackfillKeepsSummary(data: seq<Item>)
    requires Backfilled(data).Success?
    ensures SummaryOf(Backfilled(data).value) == SummaryOf(data)
  {
    var out := Backfilled(data).value;
    BackfillKeepsReportFields(data);
    assert HasAll(out, Kategorie) <==> HasAll(data, Kategorie) by {
      assert forall i | 0 <= i < |data| :: SameReportFields(out[i], data[i]);
    }
    if HasAll(data, Kategorie) {
      SummaryDependsOnlyOnCategories(out, data);
    }
  }

  /** Both reports of the backfilled records are those of the records as the service sent them. */
  lemma BackfillKeepsReport(data: seq<Item>, summary: Summary, format: Format)
    requires Backfilled(data).Success?
    ensures ReportOf(Backfilled(data).value, summary, format) == ReportOf(data, summary, format)
  {
    BackfillKeepsReportFields(data);
    ReportReadsOnlyTexts(Backfilled(data).value, data, summary, format);
  }
}
