/**
 * Summary and grading (`calculate_summary`): per-category counts, the weighted
 * point total, the raw score and the letter grade of the first score band
 * that contains the raw score.
 *
 * The raw score is kept as an exact rational (`real`); the grade is chosen
 * from this unrounded score, as the source does.
 */
module Scoring {
  import opened Wrappers
  import opened Records

  /** One entry of SCORE_GRADES: a grade letter, its closed interval, label and description. */
  datatype Band = Band(grade: string, min: real, max: real, name: string, description: string)

  /** SCORE_GRADES, in its A to E order. */
  const ScoreGrades: seq<Band> := [
    Band("A", 0.0, 0.4, "wahr",
      "Die Aussagen entsprechen nachprüfbaren Fakten und sind wahrheitsgetreu."),
    Band("B", 0.5, 1.4, "geframed",
      "Die Aussagen enthalten wahre Kernaussagen, die durch normative Framings eingefärbt werden."),
    Band("C", 1.5, 2.4, "verzerrend",
      "Die Aussagen enthalten formal richtige Kernaussagen, die durch Übertreibung, Verkürzung oder Kontextausblendung ein schiefes Bild erzeugen."),
    Band("D", 2.5, 3.4, "demokratisch dysfunktional",
      "Die Aussagen enthalten substanzielle Falschbehauptungen und delegitimierende Elemente, die den demokratischen Diskurs belasten."),
    Band("E", 3.5, 5.0, "demokratisch destruktiv",
      "Die Aussagen sind überwiegend falsch und delegitimierend, untergraben systematisch Vertrauen und demokratische Institutionen.")
  ]

  /** The grade, label and description reported when no band contains the score. */
  const Fallback: (string, string, string) := ("E", "", "")

  predicate InBand(score: real, b: Band)
  {
    b.min <= score <= b.max
  }

  /** The first band from index `i` on that contains `score`, as grade, label and description. */
  function GradeFrom(score: real, i: nat): (string, string, string)
    requires i <= |ScoreGrades|
    decreases |ScoreGrades| - i
  {
    if i == |ScoreGrades| then Fallback
    else if InBand(score, ScoreGrades[i]) then
      (ScoreGrades[i].grade, ScoreGrades[i].name, ScoreGrades[i].description)
    else GradeFrom(score, i + 1)
  }

  /** The grade `calculate_summary` assigns to a raw score. */
  function GradeOf(score: real): (string, string, string)
  {
    GradeFrom(score, 0)
  }

  /** The grade search loop of `calculate_summary`, with its `break` at the first matching band. */
  method FindGrade(score: real) returns (grade: string, gradeLabel: string, gradeDescription: string)
    ensures (grade, gradeLabel, gradeDescription) == GradeOf(score)
  {
    grade, gradeLabel, gradeDescription := "E", "", "";
    var i := 0;
    while i < |ScoreGrades|
      invariant 0 <= i <= |ScoreGrades|
      invariant GradeOf(score) == GradeFrom(score, i)
      invariant (grade, gradeLabel, gradeDescription) == Fallback
    {
      var b := ScoreGrades[i];
      if b.min <= score <= b.max {
        grade, gradeLabel, gradeDescription := b.grade, b.name, b.description;
        break;
      }
      i := i + 1;
    }
  }

  /** How often `c` occurs in `cats`. */
  function Occurrences(cats: seq<Json>, c: Json): (n: nat)
    ensures n <= |cats|
    ensures n == 0 <==> c !in cats
  {
    if cats == [] then 0 else (if cats[0] == c then 1 else 0) + Occurrences(cats[1..], c)
  }

  /** `Counter(cats)`: every category that occurs, unknown ones included, with its number of occurrences. */
  function CountCategories(cats: seq<Json>): (counts: map<Json, nat>)
    ensures forall c :: c in counts <==> c in cats
  {
    map c | c in cats :: Occurrences(cats, c)
  }

  /** `counts.get(c, 0)`. */
  function CountOf(counts: map<Json, nat>, c: Json): nat
  {
    if c in counts then counts[c] else 0
  }

  /** `sum(CATEGORY_POINTS.get(c, 0) for c in cats)`: the "punkte" fields play no part. */
  function TotalPoints(cats: seq<Json>): (p: nat)
    ensures p <= 5 * |cats|
  {
    if cats == [] then 0 else CategoryPoints(cats[0]) + TotalPoints(cats[1..])
  }

  /** `total_points / total_statements`, or 0 when there are no statements; exact and unrounded. */
  function RawScore(points: nat, total: nat): real
  {
    if total > 0 then points as real / total as real else 0.0
  }

  /** The dictionary `calculate_summary` returns (with the score unrounded). */
  datatype Summary = Summary(
    totalStatements: nat,
    categoryCounts: map<Json, nat>,
    totalPoints: nat,
    score: real,
    grade: string,
    gradeLabel: string,
    gradeDescription: string)

  /** `calculate_summary(data)`, or the KeyError a record without "kategorie" raises. */
  function SummaryOf(data: seq<Item>): (r: Result<Summary, Error>)
    ensures r.Failure? <==> exists i | 0 <= i < |data| :: Kategorie !in data[i]
    ensures r.Failure? ==> r.error == MissingKey(Kategorie)
    ensures r.Success? ==> r.value.totalStatements == |data| && r.value.totalPoints <= 5 * |data|
  {
    if !HasAll(data, Kategorie) then Failure(MissingKey(Kategorie))
    else
      var cats := Categories(data);
      var points := TotalPoints(cats);
      var score := RawScore(points, |data|);
      var (g, l, d) := GradeOf(score);
      Success(Summary(|data|, CountCategories(cats), points, score, g, l, d))
  }

  /** `calculate_summary`: the counting and summing are expressions, the grade search is the loop. */
  method CalculateSummary(data: seq<Item>) returns (r: Result<Summary, Error>)
    ensures r == SummaryOf(data)
  {
    if exists i | 0 <= i < |data| :: Kategorie !in data[i] {
      return Failure(MissingKey(Kategorie));
    }
    var cats := Categories(data);
    var totalPoints := TotalPoints(cats);
    var totalStatements := |data|;
    var score := RawScore(totalPoints, totalStatements);
    var grade, gradeLabel, gradeDescription := FindGrade(score);
    return Success(Summary(totalStatements, CountCategories(cats), totalPoints, score, grade, gradeLabel, gradeDescription));
  }

  // ---------------------------------------------------------------------------
  // Properties of the grading
  // ---------------------------------------------------------------------------

  /**
   * The grade is the first band in A to E order whose closed interval holds the
   * score, with that band's label and description; when none does, it is "E"
   * with an empty label and an empty description.
   */
  lemma {:induction false} GradeIsFirstMatch(score: real)
    ensures var (g, l, d) := GradeOf(score);
      || (exists k | 0 <= k < |ScoreGrades| ::
            && InBand(score, ScoreGrades[k])
            && (forall j | 0 <= j < k :: !InBand(score, ScoreGrades[j]))
            && (g, l, d) == (ScoreGrades[k].grade, ScoreGrades[k].name, ScoreGrades[k].description))
      || ((forall j | 0 <= j < |ScoreGrades| :: !InBand(score, ScoreGrades[j])) && (g, l, d) == Fallback)
  {
    GradeFromIsFirstMatch(score, 0);
  }

  lemma {:induction false} GradeFromIsFirstMatch(score: real, i: nat)
    requires i <= |ScoreGrades|
    decreases |ScoreGrades| - i
    ensures var (g, l, d) := GradeFrom(score, i);
      || (exists k | i <= k < |ScoreGrades| ::
            && InBand(score, ScoreGrades[k])
            && (forall j | i <= j < k :: !InBand(score, ScoreGrades[j]))
            && (g, l, d) == (ScoreGrades[k].grade, ScoreGrades[k].name, ScoreGrades[k].description))
      || ((forall j | i <= j < |ScoreGrades| :: !InBand(score, ScoreGrades[j])) && (g, l, d) == Fallback)
  {
    if i < |ScoreGrades| && !InBand(score, ScoreGrades[i]) {
      GradeFromIsFirstMatch(score, i + 1);
    }
  }

  /** The bands are disjoint and ascending, so at most one contains a score. */
  lemma BandsDisjoint(score: real, j: nat, k: nat)
    requires j < k < |ScoreGrades|
    ensures ScoreGrades[j].max < ScoreGrades[k].min
    ensures !(InBand(score, ScoreGrades[j]) && InBand(score, ScoreGrades[k]))
  {
  }

  /**
   * A score falls through to the fallback exactly when it lies outside [0, 5] or
   * in one of the gaps (0.4, 0.5), (1.4, 1.5), (2.4, 2.5), (3.4, 3.5) between the bands.
   */
  lemma {:induction false} FallbackIff(score: real)
    ensures GradeOf(score).1 == "" <==>
      || score < 0.0 || score > 5.0
      || (0.4 < score < 0.5) || (1.4 < score < 1.5) || (2.4 < score < 2.5) || (3.4 < score < 3.5)
  {
    GradeIsFirstMatch(score);
    assert forall k | 0 <= k < |ScoreGrades| :: ScoreGrades[k].name != "";
  }

  /** Every multiple of 0.1 in [0, 5] lies in a band. */
  lemma {:induction false} TenthsAreGraded(k: nat)
    requires k <= 50
    ensures GradeOf(k as real / 10.0).1 != ""
  {
    FallbackIff(k as real / 10.0);
    if k <= 4 {
    } else if k <= 14 {
    } else if k <= 24 {
    } else if k <= 34 {
    } else {
    }
  }

  /** Band boundaries are closed at both ends. */
  lemma BoundaryGrades()
    ensures GradeOf(0.4).0 == "A" && GradeOf(0.5).0 == "B"
    ensures GradeOf(2.4).0 == "C" && GradeOf(2.5).0 == "D"
    ensures GradeOf(5.0).0 == "E" && GradeOf(5.0).1 == "demokratisch destruktiv"
  {
  }

  /** A score in a gap, 9/20 = 0.45, gets "E" with empty label and description. */
  lemma GapScoreFallsThrough()
    ensures GradeOf(9.0 / 20.0) == ("E", "", "")
  {
    FallbackIff(9.0 / 20.0);
  }

  // ---------------------------------------------------------------------------
  // Properties of the counting and the score
  // ---------------------------------------------------------------------------

  /** Sum of `counts[k]` over a list of keys (keys missing from `counts` add 0). */
  function SumOver(keys: seq<Json>, counts: map<Json, nat>): nat
  {
    if keys == [] then 0 else CountOf(counts, keys[0]) + SumOver(keys[1..], counts)
  }

  predicate Distinct(keys: seq<Json>)
  {
    forall i, j | 0 <= i < j < |keys| :: keys[i] != keys[j]
  }

  /** Sum over `keys` of the occurrences in `cats`. */
  function SumOccurrences(keys: seq<Json>, cats: seq<Json>): nat
  {
    if keys == [] then 0 else Occurrences(cats, keys[0]) + SumOccurrences(keys[1..], cats)
  }

  lemma {:induction false} OccurrencesSnoc(cats: seq<Json>, x: Json, c: Json)
    ensures Occurrences(cats + [x], c) == Occurrences(cats, c) + (if x == c then 1 else 0)
  {
    if cats != [] {
      assert (cats + [x])[1..] == cats[1..] + [x];
      OccurrencesSnoc(cats[1..], x, c);
    } else {
      assert [] + [x] == [x];
    }
  }

  lemma {:induction false} SumOccurrencesSnoc(keys: seq<Json>, cats: seq<Json>, x: Json)
    ensures SumOccurrences(keys, cats + [x]) == SumOccurrences(keys, cats) + Occurrences(keys, x)
  {
    if keys != [] {
      OccurrencesSnoc(cats, x, keys[0]);
      SumOccurrencesSnoc(keys[1..], cats, x);
    }
  }

  lemma {:induction false} DistinctOccursOnce(keys: seq<Json>, x: Json)
    requires Distinct(keys) && x in keys
    ensures Occurrences(keys, x) == 1
  {
    if keys[0] == x {
      assert x !in keys[1..] by {
        forall i | 0 <= i < |keys[1..]| ensures keys[1..][i] != x {
          assert keys[1..][i] == keys[i + 1];
        }
      }
    } else {
      assert x in keys[1..] by {
        var i :| 0 <= i < |keys| && keys[i] == x;
        assert keys[1..][i - 1] == x;
      }
      DistinctOccursOnce(keys[1..], x);
    }
  }

  /** Over distinct keys covering every category, the occurrences add up to the number of records. */
  lemma {:induction false} SumOccurrencesTotal(keys: seq<Json>, cats: seq<Json>)
    requires Distinct(keys)
    requires forall c | c in cats :: c in keys
    ensures SumOccurrences(keys, cats) == |cats|
    decreases |cats|
  {
    if cats == [] {
      SumOccurrencesEmpty(keys);
    } else {
      var init, x := cats[..|cats| - 1], cats[|cats| - 1];
      assert cats == init + [x];
      SumOccurrencesSnoc(keys, init, x);
      DistinctOccursOnce(keys, x);
      SumOccurrencesTotal(keys, init);
    }
  }

  lemma {:induction false} SumOccurrencesEmpty(keys: seq<Json>)
    ensures SumOccurrences(keys, []) == 0
  {
    if keys != [] {
      SumOccurrencesEmpty(keys[1..]);
    }
  }

  lemma {:induction false} SumOverCounts(keys: seq<Json>, cats: seq<Json>)
    ensures SumOver(keys, CountCategories(cats)) == SumOccurrences(keys, cats)
  {
    if keys != [] {
      SumOverCounts(keys[1..], cats);
    }
  }

  /**
   * With every category present, the summary exists: its total is the number
   * of records and its counts are the counter of their categories.
   */
  lemma SummaryShape(data: seq<Item>)
    requires HasAll(data, Kategorie)
    ensures SummaryOf(data).Success?
    ensures SummaryOf(data).value.totalStatements == |data|
    ensures SummaryOf(data).value.categoryCounts == CountCategories(Categories(data))
  {
  }

  /** `Counter` has a key for exactly the categories some record carries, each with its positive count. */
  lemma CounterKeys(data: seq<Item>)
    requires HasAll(data, Kategorie)
    ensures forall c :: c in CountCategories(Categories(data)) <==> exists i | 0 <= i < |data| :: data[i][Kategorie] == c
    ensures forall c | c in CountCategories(Categories(data)) ::
      CountCategories(Categories(data))[c] == Occurrences(Categories(data), c) > 0
  {
    var cats := Categories(data);
    forall c ensures c in CountCategories(cats) <==> exists i | 0 <= i < |data| :: data[i][Kategorie] == c {
      if c in cats {
        var i :| 0 <= i < |cats| && cats[i] == c;
        assert data[i][Kategorie] == c;
      }
    }
  }

  /** No category is counted more often than there are records. */
  lemma SummaryCountsBounded(data: seq<Item>)
    requires SummaryOf(data).Success?
    ensures forall c :: CountOf(SummaryOf(data).value.categoryCounts, c) <= SummaryOf(data).value.totalStatements
  {
    SummaryShape(data);
    var cats := Categories(data);
    forall c ensures CountOf(CountCategories(cats), c) <= |cats| {
      if c in cats {
        assert CountCategories(cats)[c] == Occurrences(cats, c);
      }
    }
  }

  /** The counts add up to the total, whichever order their keys are taken in. */
  lemma CountsSumToTotal(data: seq<Item>, keys: seq<Json>)
    requires SummaryOf(data).Success?
    requires Distinct(keys)
    requires forall c :: c in keys <==> c in SummaryOf(data).value.categoryCounts
    ensures SumOver(keys, SummaryOf(data).value.categoryCounts) == SummaryOf(data).value.totalStatements
  {
    var cats := Categories(data);
    SumOverCounts(keys, cats);
    SumOccurrencesTotal(keys, cats);
  }

  /**
   * The point total lies in [0, 5 * total]; the raw score is points / total
   * (0 without records), lies in [0, 5], and its grade is the one the band
   * search picks for the unrounded score.
   */
  lemma ScoreInRange(data: seq<Item>)
    requires SummaryOf(data).Success?
    ensures var s := SummaryOf(data).value;
      && s.totalPoints <= 5 * s.totalStatements
      && (s.totalStatements == 0 ==> s.score == 0.0)
      && (s.totalStatements > 0 ==> s.score * s.totalStatements as real == s.totalPoints as real)
      && 0.0 <= s.score <= 5.0
      && (s.grade, s.gradeLabel, s.gradeDescription) == GradeOf(s.score)
  {
    var s := SummaryOf(data).value;
    ScoreBounds(s.totalPoints, s.totalStatements);
  }

  /** A point total of at most five per record gives a raw score in [0, 5]. */
  lemma ScoreBounds(points: nat, total: nat)
    requires points <= 5 * total
    ensures 0.0 <= RawScore(points, total) <= 5.0
    ensures total > 0 ==> RawScore(points, total) * total as real == points as real
  {
    if total > 0 {
      var score := points as real / total as real;
      assert score * total as real == points as real;
      assert points as real <= (5 * total) as real == 5.0 * total as real;
      CancelFactor(score, 5.0, total as real);
    }
  }

  /** A positive common factor can be cancelled from an inequality. */
  lemma CancelFactor(a: real, b: real, t: real)
    requires t > 0.0 && a * t <= b * t
    ensures a <= b
  {
    assert (b - a) * t >= 0.0;
  }

  /** Only the categories matter: records with the same categories get the same summary. */
  lemma SummaryDependsOnlyOnCategories(data: seq<Item>, other: seq<Item>)
    requires HasAll(data, Kategorie) && HasAll(other, Kategorie)
    requires |data| == |other| && forall i | 0 <= i < |data| :: data[i][Kategorie] == other[i][Kategorie]
    ensures SummaryOf(data) == SummaryOf(other)
  {
    assert Categories(data) == Categories(other);
  }

  // ---------------------------------------------------------------------------
  // Worked examples
  // ---------------------------------------------------------------------------

  /** A record with just a category. */
  function Classified(category: string): Item
  {
    map[Kategorie := JStr(category)]
  }

  /** No records: total 0, score 0, grade A ("wahr"). */
  lemma EmptySummary()
    ensures SummaryOf([]) == Success(Summary(0, map[], 0, 0.0, "A", "wahr", ScoreGrades[0].description))
  {
    assert CountCategories([]) == map[];
  }

  /** FALSCH, FALSCH, WAHR: 10 points over 3 records, score 10/3, grade D. */
  lemma ScenarioFalschFalschWahr()
    ensures var s := SummaryOf([Classified("FALSCH"), Classified("FALSCH"), Classified("WAHR")]);
      && s.Success?
      && s.value.totalStatements == 3
      && s.value.totalPoints == 10
      && s.value.score == 10.0 / 3.0
      && s.value.grade == "D" && s.value.gradeLabel == "demokratisch dysfunktional"
      && s.value.categoryCounts == map[JStr("FALSCH") := 2, JStr("WAHR") := 1]
  {
    var data := [Classified("FALSCH"), Classified("FALSCH"), Classified("WAHR")];
    var cats := Categories(data);
    assert cats == [JStr("FALSCH"), JStr("FALSCH"), JStr("WAHR")];
    assert Occurrences(cats, JStr("FALSCH")) == 2;
    assert Occurrences(cats, JStr("WAHR")) == 1;
    assert CountCategories(cats) == map[JStr("FALSCH") := 2, JStr("WAHR") := 1];
  }

  /** One FRAME record: 1 point, score 1, grade B. */
  lemma ScenarioFrame()
    ensures var s := SummaryOf([Classified("FRAME")]);
      s.Success? && s.value.totalPoints == 1 && s.value.score == 1.0 && s.value.grade == "B"
  {
    assert Categories([Classified("FRAME")]) == [JStr("FRAME")];
  }

  /** An unknown label does not fail: it counts toward the total, adds 0 points and keeps its own key. */
  lemma ScenarioUnknown()
    ensures var s := SummaryOf([Classified("UNKNOWN")]);
      && s.Success? && s.value.totalStatements == 1 && s.value.totalPoints == 0
      && s.value.categoryCounts == map[JStr("UNKNOWN") := 1]
      && s.value.grade == "A"
  {
    var cats := Categories([Classified("UNKNOWN")]);
    assert cats == [JStr("UNKNOWN")];
    assert Occurrences(cats, JStr("UNKNOWN")) == 1;
  }
}
