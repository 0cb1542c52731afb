/**
 * What the detailed section of both reports promises: one group per category
 * that occurs, in the fixed order and sized by the counter; one numbered line
 * per statement with a known category (records with any other category are
 * in no group); and a report is produced exactly when every record has a
 * category and every classified record has a statement and a justification.
 */
module Details {
  import opened Wrappers
  import opened Records
  import opened Scoring
  import opened Report
  import opened Outline

  /** The category and size of every group header, in order. */
  function Groups(entries: seq<Entry>): seq<(string, nat)>
  {
    if entries == [] then []
    else
      var e := entries[|entries| - 1];
      Groups(entries[..|entries| - 1]) + (if e.GroupHeader? then [(e.category, e.size)] else [])
  }

  /** The number of numbered statement lines. */
  function StatementCount(entries: seq<Entry>): nat
  {
    if entries == [] then 0
    else StatementCount(entries[..|entries| - 1]) + (if entries[|entries| - 1].StatementLine? then 1 else 0)
  }

  /** The group a category calls for: none if its count is zero, otherwise one with that count. */
  function GroupFor(counts: map<Json, nat>, category: string): seq<(string, nat)>
  {
    if CountOf(counts, JStr(category)) > 0 then [(category, CountOf(counts, JStr(category)))] else []
  }

  /** The groups the counts call for: each category of the fixed order with a non-zero count, with that count. */
  function ListedGroups(counts: map<Json, nat>, n: nat): seq<(string, nat)>
    requires n <= |CategoryOrder|
  {
    if n == 0 then [] else ListedGroups(counts, n - 1) + GroupFor(counts, CategoryOrder[n - 1])
  }

  /** The record has the statement and its justification. */
  predicate HasTexts(item: Item)
  {
    Aussage in item && Begruendung in item
  }

  /** A report can be produced: every record has a category, and every classified record has both texts. */
  predicate Printable(data: seq<Item>)
  {
    && HasAll(data, Kategorie)
    && forall i | 0 <= i < |data| && IsKnownCategory(data[i][Kategorie]) :: HasTexts(data[i])
  }

  // ---------------------------------------------------------------------------
  // Counting headers and lines
  // ---------------------------------------------------------------------------

  lemma {:induction false} CountsAppend(a: seq<Entry>, b: seq<Entry>)
    ensures Groups(a + b) == Groups(a) + Groups(b)
    ensures StatementCount(a + b) == StatementCount(a) + StatementCount(b)
    decreases |b|
  {
    if b == [] {
      assert a + b == a;
    } else {
      var init := b[..|b| - 1];
      assert (a + b)[..|a + b| - 1] == a + init;
      CountsAppend(a, init);
    }
  }

  lemma PairCounts(x: Entry, y: Entry)
    ensures Groups([x, y]) ==
      (if x.GroupHeader? then [(x.category, x.size)] else []) + (if y.GroupHeader? then [(y.category, y.size)] else [])
    ensures StatementCount([x, y]) == (if x.StatementLine? then 1 else 0) + (if y.StatementLine? then 1 else 0)
  {
    var pair := [x, y];
    assert pair[..|pair| - 1] == [x] && pair[|pair| - 1] == y;
    assert [x][..0] == [];
    assert Groups([x]) == (if x.GroupHeader? then [(x.category, x.size)] else []);
    assert StatementCount([x]) == (if x.StatementLine? then 1 else 0);
  }

  /** Entries without headers and statement lines add nothing to either count. */
  lemma {:induction false} PreambleCounts(entries: seq<Entry>)
    requires Preamble(entries)
    ensures Groups(entries) == [] && StatementCount(entries) == 0
  {
    if entries != [] {
      PreambleCounts(entries[..|entries| - 1]);
    }
  }

  /** A group's lines hold no header and one statement line per item. */
  lemma {:induction false} LinesCounts(format: Format, category: string, items: seq<Item>)
    requires StatementLines(format, category, items).Success?
    ensures Groups(StatementLines(format, category, items).value) == []
    ensures StatementCount(StatementLines(format, category, items).value) == |items|
    decreases |items|
  {
    if items != [] {
      var n := |items|;
      LinesCounts(format, category, items[..n - 1]);
      var prev := StatementLines(format, category, items[..n - 1]).value;
      var item := items[n - 1];
      var pair := [StatementLine(n, Symbol(category), ColourFor(format, category), item[Aussage]),
                   Justification(item[Begruendung])];
      assert StatementLines(format, category, items).value == prev + pair;
      PairCounts(pair[0], pair[1]);
      CountsAppend(prev, pair);
    }
  }

  /** A category's block: one header, sized by the category's occurrences, and that many statement lines. */
  lemma BlockCounts(format: Format, data: seq<Item>, category: string)
    requires HasAll(data, Kategorie)
    requires GroupBlock(format, data, category).Success?
    ensures var size := Occurrences(Categories(data), JStr(category));
      && Groups(GroupBlock(format, data, category).value) == (if size > 0 then [(category, size)] else [])
      && StatementCount(GroupBlock(format, data, category).value) == size
  {
    var items := Filter(data, category);
    FilterSpec(data, category);
    if items != [] {
      var lines := StatementLines(format, category, items).value;
      LinesCounts(format, category, items);
      var head := [GroupHeader(category, |items|, HeaderColour(format, category)),
                   GroupDescription(CategoryDescription(category))];
      assert GroupBlock(format, data, category).value == head + lines;
      PairCounts(head[0], head[1]);
      CountsAppend(head, lines);
      assert Groups(head) == [(category, |items|)];
    }
  }

  /** The entries of several blocks, one after the other. */
  function Concat(blocks: seq<seq<Entry>>): seq<Entry>
  {
    if blocks == [] then [] else Concat(blocks[..|blocks| - 1]) + blocks[|blocks| - 1]
  }

  /** A produced section for the first `n` categories is their blocks, one after the other. */
  lemma {:induction false} DetailedBlocks(format: Format, data: seq<Item>, n: nat) returns (blocks: seq<seq<Entry>>)
    requires n <= |CategoryOrder|
    requires Detailed(format, data, n).Success?
    ensures |blocks| == n && Detailed(format, data, n).value == Concat(blocks)
    ensures forall i | 0 <= i < n :: GroupBlock(format, data, CategoryOrder[i]) == Success(blocks[i])
  {
    if n == 0 {
      blocks := [];
    } else {
      var prev := DetailedBlocks(format, data, n - 1);
      var block := GroupBlock(format, data, CategoryOrder[n - 1]).value;
      assert Detailed(format, data, n).value == Detailed(format, data, n - 1).value + block;
      blocks := prev + [block];
      assert blocks[..n - 1] == prev && blocks[n - 1] == block;
      forall i | 0 <= i < n ensures GroupBlock(format, data, CategoryOrder[i]) == Success(blocks[i]) {
        if i < n - 1 {
          assert blocks[i] == prev[i];
        }
      }
    }
  }

  /** Blocks each holding the group its category calls for list, together, what the counter lists. */
  lemma {:induction false} ConcatGroups(counts: map<Json, nat>, blocks: seq<seq<Entry>>)
    requires |blocks| <= |CategoryOrder|
    requires forall i | 0 <= i < |blocks| :: Groups(blocks[i]) == GroupFor(counts, CategoryOrder[i])
    ensures Groups(Concat(blocks)) == ListedGroups(counts, |blocks|)
  {
    var n := |blocks|;
    if n > 0 {
      var prev := blocks[..n - 1];
      ConcatGroups(counts, prev);
      CountsAppend(Concat(prev), blocks[n - 1]);
    }
  }

  /** Blocks each holding one statement line per record of their category count the records of those categories. */
  lemma {:induction false} ConcatLines(cats: seq<Json>, blocks: seq<seq<Entry>>)
    requires |blocks| <= |CategoryOrder|
    requires forall i | 0 <= i < |blocks| :: StatementCount(blocks[i]) == Occurrences(cats, KnownKeys[i])
    ensures StatementCount(Concat(blocks)) == SumOccurrences(KnownKeys[..|blocks|], cats)
  {
    var n := |blocks|;
    if n == 0 {
      SumOccurrencesNone(cats);
    } else {
      var prev := blocks[..n - 1];
      ConcatLines(cats, prev);
      CountsAppend(Concat(prev), blocks[n - 1]);
      TakeSnoc(KnownKeys, n);
      SumOccurrencesAppend(KnownKeys[..n - 1], KnownKeys[n - 1], cats);
    }
  }

  /** The first `n` categories' group headers are those the counter lists, and their lines count the records. */
  lemma DetailedCounts(format: Format, data: seq<Item>, n: nat)
    requires HasAll(data, Kategorie)
    requires n <= |CategoryOrder|
    requires Detailed(format, data, n).Success?
    ensures Groups(Detailed(format, data, n).value) == ListedGroups(CountCategories(Categories(data)), n)
    ensures StatementCount(Detailed(format, data, n).value) == SumOccurrences(KnownKeys[..n], Categories(data))
  {
    var cats := Categories(data);
    var blocks := DetailedBlocks(format, data, n);
    forall i | 0 <= i < n
      ensures Groups(blocks[i]) == GroupFor(CountCategories(cats), CategoryOrder[i])
      ensures StatementCount(blocks[i]) == Occurrences(cats, KnownKeys[i])
    {
      BlockCounts(format, data, CategoryOrder[i]);
      CountOfCounter(cats, JStr(CategoryOrder[i]));
    }
    ConcatGroups(CountCategories(cats), blocks);
    ConcatLines(cats, blocks);
  }

  /** The report is the front sections followed by the detailed section, or the detailed section's error. */
  lemma ReportParts(data: seq<Item>, summary: Summary, format: Format)
    ensures ReportOf(data, summary, format).Success? <==> Detailed(format, data, |CategoryOrder|).Success?
    ensures ReportOf(data, summary, format).Success? ==>
      ReportOf(data, summary, format).value == Front(summary, format) + Detailed(format, data, |CategoryOrder|).value
    ensures ReportOf(data, summary, format).Failure? ==>
      ReportOf(data, summary, format).error == Detailed(format, data, |CategoryOrder|).error
  {
  }

  /** The front sections hold no group header and no statement line. */
  lemma FrontCounts(summary: Summary, format: Format)
    ensures Groups(Front(summary, format)) == [] && StatementCount(Front(summary, format)) == 0
  {
    var front := Front(summary, format);
    FrontLayout(summary, format);
    PreambleCounts(front[..18]);
    var tail := [PageBreak, Heading(DetailsTitle)];
    assert front == front[..18] + tail;
    PairCounts(tail[0], tail[1]);
    CountsAppend(front[..18], tail);
  }

  /**
   * The whole report: its group headers are exactly the categories whose
   * count is non-zero, in the fixed order, each with that count; it has one
   * statement line per record with a known category, so it has a line for
   * every record exactly when no record carries an unknown category.
   */
  lemma ReportCounts(data: seq<Item>, summary: Summary, format: Format)
    requires HasAll(data, Kategorie)
    requires ReportOf(data, summary, format).Success?
    ensures var report := ReportOf(data, summary, format).value;
      && Groups(report) == ListedGroups(CountCategories(Categories(data)), |CategoryOrder|)
      && StatementCount(report) == SumOccurrences(KnownKeys, Categories(data))
      && (StatementCount(report) == |data| <==> forall i | 0 <= i < |data| :: IsKnownCategory(data[i][Kategorie]))
  {
    ReportParts(data, summary, format);
    var details := Detailed(format, data, |CategoryOrder|).value;
    DetailedCounts(format, data, |CategoryOrder|);
    KnownKeysWhole();
    FrontCounts(summary, format);
    PrefixCounts(Front(summary, format), details);
    ClassifiedCount(data);
  }

  /** A prefix without headers and statement lines leaves both counts as they are. */
  lemma PrefixCounts(front: seq<Entry>, rest: seq<Entry>)
    requires Groups(front) == [] && StatementCount(front) == 0
    ensures Groups(front + rest) == Groups(rest) && StatementCount(front + rest) == StatementCount(rest)
  {
    CountsAppend(front, rest);
    assert [] + Groups(rest) == Groups(rest);
  }

  /** The records with a known category are all records exactly when no category is unknown. */
  lemma ClassifiedCount(data: seq<Item>)
    requires HasAll(data, Kategorie)
    ensures SumOccurrences(KnownKeys, Categories(data)) <= |data|
    ensures SumOccurrences(KnownKeys, Categories(data)) == |data| <==>
      forall i | 0 <= i < |data| :: IsKnownCategory(data[i][Kategorie])
  {
    var cats := Categories(data);
    KnownKeysDistinct();
    SumOccurrencesAll(KnownKeys, cats);
    forall i | 0 <= i < |data| ensures cats[i] in KnownKeys <==> IsKnownCategory(data[i][Kategorie]) {
      KnownKeysAreKnown(cats[i]);
    }
  }

  /** With the summary of the same records, every group header's size is the count its quantification line shows. */
  lemma HeadersMatchQuantification(data: seq<Item>, format: Format)
    requires SummaryOf(data).Success?
    requires ReportOf(data, SummaryOf(data).value, format).Success?
    ensures var s := SummaryOf(data).value;
      Groups(ReportOf(data, s, format).value) == ListedGroups(s.categoryCounts, |CategoryOrder|)
  {
    var s := SummaryOf(data).value;
    assert s.categoryCounts == CountCategories(Categories(data));
    ReportCounts(data, s, format);
  }

  // ---------------------------------------------------------------------------
  // When a report is produced
  // ---------------------------------------------------------------------------

  predicate AllHaveTexts(items: seq<Item>)
  {
    forall k | 0 <= k < |items| :: HasTexts(items[k])
  }

  /** Every record of `category` has both texts. */
  predicate CategoryHasTexts(data: seq<Item>, category: string)
  {
    forall i | 0 <= i < |data| && Kategorie in data[i] && data[i][Kategorie] == JStr(category) :: HasTexts(data[i])
  }

  lemma AllHaveTextsCons(x: Item, rest: seq<Item>)
    ensures AllHaveTexts([x] + rest) <==> HasTexts(x) && AllHaveTexts(rest)
  {
    var all := [x] + rest;
    assert all[0] == x;
    if AllHaveTexts(all) {
      forall k | 0 <= k < |rest| ensures HasTexts(rest[k]) {
        assert all[k + 1] == rest[k];
      }
    }
    if HasTexts(x) && AllHaveTexts(rest) {
      forall k | 0 <= k < |all| ensures HasTexts(all[k]) {
        if k > 0 {
          assert all[k] == rest[k - 1];
        }
      }
    }
  }

  lemma CategoryHasTextsCons(data: seq<Item>, category: string)
    requires data != []
    ensures CategoryHasTexts(data, category) <==>
      && (Kategorie in data[0] && data[0][Kategorie] == JStr(category) ==> HasTexts(data[0]))
      && CategoryHasTexts(data[1..], category)
  {
    assert forall i | 1 <= i < |data| :: data[i] == data[1..][i - 1];
  }

  /** A category's filtered items all have both texts exactly when all its records do. */
  lemma {:induction false} FilterTexts(data: seq<Item>, category: string)
    requires HasAll(data, Kategorie)
    ensures AllHaveTexts(Filter(data, category)) <==> CategoryHasTexts(data, category)
  {
    if data != [] {
      FilterTexts(data[1..], category);
      CategoryHasTextsCons(data, category);
      var rest := Filter(data[1..], category);
      FilterCons(data, category);
      if data[0][Kategorie] == JStr(category) {
        AllHaveTextsCons(data[0], rest);
      } else {
        assert [] + rest == rest;
      }
    }
  }

  /** A category's block is produced exactly when all records of that category have both texts. */
  lemma GroupBlockSucceeds(format: Format, data: seq<Item>, category: string)
    requires HasAll(data, Kategorie)
    ensures GroupBlock(format, data, category).Success? <==> CategoryHasTexts(data, category)
  {
    FilterTexts(data, category);
    StatementLinesSpec(format, category, Filter(data, category));
  }

  /** The detailed section for the first `n` categories is produced exactly when their records have both texts. */
  lemma {:induction false} DetailedSucceeds(format: Format, data: seq<Item>, n: nat)
    requires HasAll(data, Kategorie)
    requires n <= |CategoryOrder|
    ensures Detailed(format, data, n).Success? <==>
      forall i | 0 <= i < |data| && data[i][Kategorie] in KnownKeys[..n] :: HasTexts(data[i])
  {
    if n > 0 {
      var c := CategoryOrder[n - 1];
      DetailedSucceeds(format, data, n - 1);
      GroupBlockSucceeds(format, data, c);
      TakeSnoc(KnownKeys, n);
      assert KnownKeys[n - 1] == JStr(c);
      assert Detailed(format, data, n).Success? <==>
        Detailed(format, data, n - 1).Success? && GroupBlock(format, data, c).Success?;
    }
  }

  /**
   * A report is produced exactly when every record has a category and every
   * record with a known category has a statement and a justification; a
   * record without a category stops it with that KeyError.
   */
  lemma ReportSucceedsIff(data: seq<Item>, summary: Summary, format: Format)
    ensures ReportOf(data, summary, format).Success? <==> Printable(data)
    ensures !HasAll(data, Kategorie) ==> ReportOf(data, summary, format) == Failure(MissingKey(Kategorie))
  {
    ReportParts(data, summary, format);
    if HasAll(data, Kategorie) {
      DetailedSucceeds(format, data, |CategoryOrder|);
      KnownKeysWhole();
      forall i | 0 <= i < |data| ensures data[i][Kategorie] in KnownKeys <==> IsKnownCategory(data[i][Kategorie]) {
        KnownKeysAreKnown(data[i][Kategorie]);
      }
    } else {
      assert Detailed(format, data, 1) == Failure(MissingKey(Kategorie));
      DetailedFailurePersists(format, data, 1, |CategoryOrder|);
    }
  }

  // ---------------------------------------------------------------------------
  // Worked example
  // ---------------------------------------------------------------------------

  /** A classified record with its statement and justification. */
  function Stated(category: string, statement: string, reason: string): Item
  {
    map[Kategorie := JStr(category), Aussage := JStr(statement), Begruendung := JStr(reason)]
  }

  /**
   * A WAHR record followed by a FALSCH record: whatever the summary and the
   * format, the report is produced, its groups are FALSCH and then WAHR with
   * one record each, the three categories without records get no group, and
   * it has one statement line per record.
   */
  lemma ScenarioFalschBeforeWahr(summary: Summary, format: Format)
    ensures var r := ReportOf([Stated("WAHR", "w", "rw"), Stated("FALSCH", "f", "rf")], summary, format);
      && r.Success?
      && Groups(r.value) == [("FALSCH", 1), ("WAHR", 1)]
      && StatementCount(r.value) == 2
  {
    var data := [Stated("WAHR", "w", "rw"), Stated("FALSCH", "f", "rf")];
    assert HasTexts(data[0]) && HasTexts(data[1]);
    WahrThenFalsch(data, summary, format);
  }

  /** The scenario above for any two records of those categories that carry their texts. */
  lemma WahrThenFalsch(data: seq<Item>, summary: Summary, format: Format)
    requires |data| == 2 && HasAll(data, Kategorie)
    requires data[0][Kategorie] == JStr("WAHR") && data[1][Kategorie] == JStr("FALSCH")
    requires HasTexts(data[0]) && HasTexts(data[1])
    ensures var r := ReportOf(data, summary, format);
      && r.Success?
      && Groups(r.value) == [("FALSCH", 1), ("WAHR", 1)]
      && StatementCount(r.value) == 2
  {
    assert IsKnownCategory(data[0][Kategorie]) && IsKnownCategory(data[1][Kategorie]);
    assert Printable(data);
    ReportSucceedsIff(data, summary, format);
    ReportCounts(data, summary, format);
    assert Categories(data) == [JStr("WAHR"), JStr("FALSCH")];
    ListedGroupsFalschBeforeWahr();
  }

  /** The groups the counter of WAHR, FALSCH calls for: FALSCH, then WAHR. */
  lemma ListedGroupsFalschBeforeWahr()
    ensures ListedGroups(CountCategories([JStr("WAHR"), JStr("FALSCH")]), |CategoryOrder|) == [("FALSCH", 1), ("WAHR", 1)]
  {
    var cats := [JStr("WAHR"), JStr("FALSCH")];
    var counts := CountCategories(cats);
    assert cats[1..] == [JStr("FALSCH")] && cats[1..][1..] == [];
    assert CountOf(counts, JStr("FALSCH")) == 1 && CountOf(counts, JStr("WAHR")) == 1;
    assert CountOf(counts, JStr("DELEGITIMIERUNG")) == 0;
    assert CountOf(counts, JStr("VERZERRUNG")) == 0;
    assert CountOf(counts, JStr("FRAME")) == 0;
    CategoryOrderEntries();
    assert ListedGroups(counts, 1) == [] + [("FALSCH", 1)] == [("FALSCH", 1)];
    assert ListedGroups(counts, 2) == [("FALSCH", 1)] + [];
    assert ListedGroups(counts, 3) == [("FALSCH", 1)] + [];
    assert ListedGroups(counts, 4) == [("FALSCH", 1)] + [];
    assert ListedGroups(counts, 5) == [("FALSCH", 1)] + [("WAHR", 1)];
  }

  lemma CategoryOrderEntries()
    ensures |CategoryOrder| == 5
    ensures CategoryOrder[0] == "FALSCH" && CategoryOrder[1] == "DELEGITIMIERUNG" && CategoryOrder[2] == "VERZERRUNG"
    ensures CategoryOrder[3] == "FRAME" && CategoryOrder[4] == "WAHR"
  {
  }
}
