/**
 * The categorization agent (agents/categorization.py): weighted pattern
 * scores per category, normalised to the best one; shares of the total in
 * descending order; the categories whose share reaches the confidence
 * threshold; keywords by frequency and topics by accumulated confidence.
 *
 * The regular expressions that count category patterns and capture topic
 * phrases are parameters (`CategoryMatchers`); everything done with their
 * results is modelled.
 */
module Categorization {
  import opened Text
  import opened Collections
  import opened Models

  /** `min_confidence_threshold`. */
  const MinConfidence: real := 0.3

  /** The categories that carry patterns, in the order the agent scores them. */
  const PatternCategories: seq<FeedbackCategory> :=
    [TechnicalIssues, ProceduralInefficiencies, ResourceAllocation, Communication,
     TrainingNeeds, SystemImprovements, PolicyRecommendations]

  lemma PatternCategoriesDistinct()
    ensures DistinctBy(seq(7, i requires 0 <= i < 7 => (PatternCategories[i], 0.0)), Fst)
    ensures Other !in PatternCategories
  {
  }

  /** The weights of a category's five patterns, in pattern order; `Other` has none. */
  function Weights(c: FeedbackCategory): (ws: seq<real>)
    ensures c != Other <==> |ws| == 5
    ensures c == Other ==> ws == []
    ensures forall k :: 0 <= k < |ws| ==> 0.5 <= ws[k] <= 0.9
  {
    match c
    case TechnicalIssues => [0.8, 0.7, 0.6, 0.5, 0.8]
    case ProceduralInefficiencies => [0.7, 0.8, 0.7, 0.6, 0.6]
    case ResourceAllocation => [0.8, 0.7, 0.7, 0.6, 0.7]
    case Communication => [0.8, 0.7, 0.7, 0.6, 0.5]
    case TrainingNeeds => [0.9, 0.7, 0.8, 0.7, 0.7]
    case SystemImprovements => [0.7, 0.8, 0.7, 0.7, 0.6]
    case PolicyRecommendations => [0.9, 0.8, 0.7, 0.7, 0.6]
    case Other => []
  }

  /**
   * `len(re.findall(pattern, content, re.IGNORECASE))` for each category and
   * the index of its pattern.
   */
  type PatternCounts = FeedbackCategory -> nat -> nat

  /** A category's scores in dict order: `(category, score)` pairs. */
  type Scores = seq<(FeedbackCategory, real)>

  predicate PositiveWeights(ws: seq<real>) {
    forall k :: 0 <= k < |ws| ==> ws[k] > 0.0
  }

  /** The weighted match count of the first `n` patterns: `sum(len(matches) * weight)`. */
  function WeightedSum(ws: seq<real>, count: nat -> nat, n: nat): (s: real)
    requires n <= |ws| && PositiveWeights(ws)
    ensures s >= 0.0
  {
    if n == 0 then 0.0
    else WeightedSum(ws, count, n - 1) + (count(n - 1) as real) * ws[n - 1]
  }

  /** A score is 0 exactly when none of its patterns matched. */
  lemma {:induction false} WeightedSumZero(ws: seq<real>, count: nat -> nat, n: nat)
    requires n <= |ws| && PositiveWeights(ws)
    ensures WeightedSum(ws, count, n) == 0.0 <==> forall k :: 0 <= k < n ==> count(k) == 0
  {
    if n > 0 {
      WeightedSumZero(ws, count, n - 1);
    }
  }

  function CategoryScore(c: FeedbackCategory, counts: PatternCounts): real {
    WeightedSum(Weights(c), counts(c), |Weights(c)|)
  }

  /** The accumulated `category_scores` before normalisation. */
  function RawScores(counts: PatternCounts): (r: Scores)
    ensures |r| == 7
    ensures forall i :: 0 <= i < 7 ==> r[i].0 == PatternCategories[i] && r[i].1 >= 0.0
  {
    seq(7, i requires 0 <= i < 7 => (PatternCategories[i], CategoryScore(PatternCategories[i], counts)))
  }

  /** A category's raw score is 0 exactly when none of its five patterns matched. */
  lemma RawScoresZero(counts: PatternCounts, i: nat)
    requires i < 7
    ensures RawScores(counts)[i].1 == 0.0 <==> forall k :: 0 <= k < 5 ==> counts(PatternCategories[i])(k) == 0
  {
    var c := PatternCategories[i];
    WeightedSumZero(Weights(c), counts(c), 5);
  }

  predicate NonNegative(ss: Scores) {
    forall i :: 0 <= i < |ss| ==> ss[i].1 >= 0.0
  }

  /** `max(category_scores.values())`. */
  function MaxOf(ss: Scores): (m: real)
    requires ss != []
    ensures forall i :: 0 <= i < |ss| ==> ss[i].1 <= m
    ensures exists i :: 0 <= i < |ss| && ss[i].1 == m
  {
    if |ss| == 1 then ss[0].1
    else
      var m0 := MaxOf(ss[..|ss| - 1]);
      if ss[|ss| - 1].1 > m0 then ss[|ss| - 1].1 else m0
  }

  /** `max(...) if category_scores else 1.0`. */
  function TopScore(ss: Scores): real {
    if ss == [] then 1.0 else MaxOf(ss)
  }

  function Min1(x: real): (r: real)
    ensures r <= 1.0 && r <= x && (r == x || r == 1.0)
  {
    if x <= 1.0 then x else 1.0
  }

  /** Each score divided by the best one, capped at 1, when the best one is positive. */
  function Normalise(ss: Scores): Scores {
    var top := TopScore(ss);
    if top > 0.0 then seq(|ss|, i requires 0 <= i < |ss| => (ss[i].0, Min1(ss[i].1 / top)))
    else ss
  }

  /** When the best score is positive, each score is divided by it (the cap never bites). */
  lemma NormaliseDivides(ss: Scores)
    requires NonNegative(ss) && ss != [] && TopScore(ss) > 0.0
    ensures |Normalise(ss)| == |ss|
    ensures forall i :: 0 <= i < |ss| ==>
              Normalise(ss)[i] == (ss[i].0, ss[i].1 / TopScore(ss)) && 0.0 <= Normalise(ss)[i].1 <= 1.0
  {
    var top := TopScore(ss);
    forall i | 0 <= i < |ss|
      ensures 0.0 <= ss[i].1 / top <= 1.0
    {
      DivideAtMostOne(ss[i].1, top);
    }
  }

  /**
   * Normalisation keeps the categories and lies in [0, 1]; the best
   * category gets exactly 1.0 when some score is positive, and when none is
   * the scores stay 0.
   */
  lemma NormaliseRange(ss: Scores)
    requires NonNegative(ss) && ss != []
    ensures |Normalise(ss)| == |ss|
    ensures forall i :: 0 <= i < |ss| ==> Normalise(ss)[i].0 == ss[i].0
    ensures forall i :: 0 <= i < |ss| ==> 0.0 <= Normalise(ss)[i].1 <= 1.0
    ensures TopScore(ss) > 0.0 ==> exists i :: 0 <= i < |ss| && Normalise(ss)[i].1 == 1.0
    ensures TopScore(ss) == 0.0 ==> forall i :: 0 <= i < |ss| ==> Normalise(ss)[i].1 == 0.0
  {
    var top := TopScore(ss);
    if top > 0.0 {
      NormaliseDivides(ss);
      var k :| 0 <= k < |ss| && ss[k].1 == top;
      assert Normalise(ss)[k] == (ss[k].0, ss[k].1 / top);
      DivideSelf(top);
    }
  }

  /** Normalisation keeps the order of merit between any two categories. */
  lemma NormaliseOrder(ss: Scores, i: nat, j: nat)
    requires NonNegative(ss) && i < |ss| && j < |ss|
    ensures ss[i].1 <= ss[j].1 <==> Normalise(ss)[i].1 <= Normalise(ss)[j].1
  {
    if TopScore(ss) > 0.0 {
      NormaliseDivides(ss);
      DivideMonotone(ss[i].1, ss[j].1, TopScore(ss));
    }
  }

  lemma DivideAtMostOne(x: real, top: real)
    requires 0.0 <= x <= top && top > 0.0
    ensures 0.0 <= x / top <= 1.0
  {
  }

  lemma DivideSelf(x: real)
    requires x > 0.0
    ensures x / x == 1.0
  {
  }

  lemma DivideMonotone(x: real, y: real, top: real)
    requires top > 0.0
    ensures x <= y <==> x / top <= y / top
  {
    assert x / top * top == x && y / top * top == y;
  }

  /** The inner loop of `_rule_based_categorization`: one category's weighted matches. */
  method ScoreCategory(c: FeedbackCategory, counts: PatternCounts) returns (s: real)
    ensures s == CategoryScore(c, counts)
  {
    s := 0.0;
    var k := 0;
    while k < |Weights(c)|
      invariant k <= |Weights(c)| && s == WeightedSum(Weights(c), counts(c), k)
    {
      s := s + (counts(c)(k) as real) * Weights(c)[k];
      k := k + 1;
    }
  }

  /** The outer loop of `_rule_based_categorization`: every pattern category's score, in order. */
  method AccumulateScores(counts: PatternCounts) returns (scores: Scores)
    ensures scores == RawScores(counts)
  {
    ghost var raw := RawScores(counts);
    scores := [];
    for i := 0 to |PatternCategories|
      invariant scores == raw[..i]
    {
      var c := PatternCategories[i];
      var s := ScoreCategory(c, counts);
      scores := scores + [(c, s)];
    }
  }

  /** `max(category_scores.values()) if category_scores else 1.0`. */
  method HighestScore(scores: Scores) returns (top: real)
    ensures top == TopScore(scores)
  {
    top := 1.0;
    if scores != [] {
      top := scores[0].1;
      for i := 1 to |scores|
        invariant top == MaxOf(scores[..i])
      {
        assert scores[..i + 1][..i] == scores[..i];
        if scores[i].1 > top {
          top := scores[i].1;
        }
      }
      assert scores[..|scores|] == scores;
    }
  }

  /**
   * `_rule_based_categorization`: accumulate each category's weighted
   * pattern counts, then divide every score by the largest, in place.
   */
  method RuleBasedCategorization(counts: PatternCounts) returns (scores: Scores)
    ensures scores == Normalise(RawScores(counts))
  {
    scores := AccumulateScores(counts);
    ghost var raw := scores;
    var top := HighestScore(scores);
    if top > 0.0 {
      for i := 0 to |scores|
        invariant |scores| == |raw|
        invariant forall j :: 0 <= j < i ==> scores[j] == (raw[j].0, Min1(raw[j].1 / top))
        invariant forall j :: i <= j < |raw| ==> scores[j] == raw[j]
      {
        scores := scores[i := (scores[i].0, Min1(scores[i].1 / top))];
      }
    }
  }

  /** The sum of the values, in order. */
  function SumValues<K>(ss: seq<(K, real)>): real {
    if ss == [] then 0.0 else SumValues(ss[..|ss| - 1]) + ss[|ss| - 1].1
  }

  lemma {:induction false} SumValuesZero<K>(ss: seq<(K, real)>)
    requires forall i :: 0 <= i < |ss| ==> ss[i].1 == 0.0
    ensures SumValues(ss) == 0.0
  {
    if ss != [] {
      SumValuesZero(ss[..|ss| - 1]);
    }
  }

  lemma {:induction false} SumValuesNonNegative<K>(ss: seq<(K, real)>)
    requires forall i :: 0 <= i < |ss| ==> ss[i].1 >= 0.0
    ensures SumValues(ss) >= 0.0
    ensures forall i :: 0 <= i < |ss| ==> ss[i].1 <= SumValues(ss)
    ensures SumValues(ss) == 0.0 ==> forall i :: 0 <= i < |ss| ==> ss[i].1 == 0.0
  {
    if ss != [] {
      SumValuesNonNegative(ss[..|ss| - 1]);
    }
  }

  /** `score / total if total > 0 else 0.0` for every pair, in order. */
  function Shares<K>(ss: seq<(K, real)>, total: real): (r: seq<(K, real)>)
    ensures |r| == |ss|
    ensures forall i :: 0 <= i < |ss| ==> r[i].0 == ss[i].0
  {
    seq(|ss|, i requires 0 <= i < |ss| => (ss[i].0, if total > 0.0 then ss[i].1 / total else 0.0))
  }

  /** Dividing every value by `total` divides their sum by `total`. */
  lemma {:induction false} SharesSum<K>(ss: seq<(K, real)>, total: real)
    requires total > 0.0
    ensures SumValues(Shares(ss, total)) == SumValues(ss) / total
  {
    if ss != [] {
      var init := ss[..|ss| - 1];
      assert Shares(ss, total)[..|ss| - 1] == Shares(init, total);
      SharesSum(init, total);
    }
  }

  /**
   * `_determine_categories`: the scores sorted in descending order, the
   * primary category (the first when its score is positive), and each
   * score's share of the total, in sorted order.
   */
  function DetermineCategories(scores: Scores): (FeedbackCategory, Scores) {
    if scores == [] then (Other, [(Other, 1.0)])
    else
      var sorted := SortBy(scores, ByValueDesc);
      var total := SumValues(sorted);
      (if sorted[0].1 > 0.0 then sorted[0].0 else Other, Shares(sorted, total))
  }

  /** The scores in descending order: the same pairs, still non-negative and with distinct keys. */
  lemma SortedScores(scores: Scores)
    requires NonNegative(scores) && DistinctBy(scores, Fst)
    ensures var sorted := SortBy(scores, ByValueDesc);
      |sorted| == |scores| &&
      (forall i :: 0 <= i < |sorted| ==> sorted[i] in scores) &&
      (forall i :: 0 <= i < |scores| ==> scores[i] in sorted) &&
      NonNegative(sorted) && DistinctBy(sorted, Fst) &&
      (forall i, j :: 0 <= i < j < |sorted| ==> sorted[i].1 >= sorted[j].1)
  {
    var sorted := SortBy(scores, ByValueDesc);
    SortByMembers(scores, ByValueDesc);
    SortByDistinctBy(scores, ByValueDesc, Fst);
    SortBySorted(scores, ByValueDesc);
    ByValueDescOrder(sorted);
    forall i | 0 <= i < |sorted|
      ensures sorted[i].1 >= 0.0
    {
      var k :| 0 <= k < |scores| && scores[k] == sorted[i];
    }
  }

  /** The shares name the same categories as the scores, each once. */
  lemma DetermineCategoriesKeys(scores: Scores)
    requires scores != [] && NonNegative(scores) && DistinctBy(scores, Fst)
    ensures var conf := DetermineCategories(scores).1;
      |conf| == |scores| &&
      (forall i :: 0 <= i < |conf| ==> conf[i].0 in KeysOf(scores)) &&
      (forall i :: 0 <= i < |scores| ==> scores[i].0 in KeysOf(conf)) &&
      DistinctBy(conf, Fst)
  {
    var sorted := SortBy(scores, ByValueDesc);
    var conf := Shares(sorted, SumValues(sorted));
    SortedScores(scores);
    forall i | 0 <= i < |conf|
      ensures conf[i].0 in KeysOf(scores)
    {
      var k :| 0 <= k < |scores| && scores[k] == sorted[i];
      assert KeysOf(scores)[k] == conf[i].0;
    }
    forall i | 0 <= i < |scores|
      ensures scores[i].0 in KeysOf(conf)
    {
      var k :| 0 <= k < |sorted| && sorted[k] == scores[i];
      assert KeysOf(conf)[k] == scores[i].0;
    }
    forall i, j | 0 <= i < j < |conf|
      ensures Fst(conf[i]) != Fst(conf[j])
    {
      assert Fst(sorted[i]) != Fst(sorted[j]);
    }
  }

  /**
   * The shares lie in [0, 1], come in descending order, and sum to 1 -- or
   * are all 0 when every score is 0.
   */
  lemma DetermineCategoriesShares(scores: Scores)
    requires scores != [] && NonNegative(scores) && DistinctBy(scores, Fst)
    ensures var conf := DetermineCategories(scores).1;
      (forall i :: 0 <= i < |conf| ==> 0.0 <= conf[i].1 <= 1.0) &&
      (SumValues(conf) == 1.0 || forall i :: 0 <= i < |conf| ==> conf[i].1 == 0.0) &&
      (forall i, j :: 0 <= i < j < |conf| ==> conf[i].1 >= conf[j].1)
  {
    var sorted := SortBy(scores, ByValueDesc);
    var total := SumValues(sorted);
    var conf := Shares(sorted, total);
    SortedScores(scores);
    SumValuesNonNegative(sorted);
    if total > 0.0 {
      SharesSum(sorted, total);
      DivideSelf(total);
      forall i | 0 <= i < |conf|
        ensures 0.0 <= conf[i].1 <= 1.0
      {
        DivideAtMostOne(sorted[i].1, total);
      }
      forall i, j | 0 <= i < j < |conf|
        ensures conf[i].1 >= conf[j].1
      {
        DivideMonotone(sorted[j].1, sorted[i].1, total);
      }
    }
  }

  /**
   * The primary category of `_determine_categories` is one whose score is
   * the largest, or `Other` when no score is positive.
   */
  lemma DetermineCategoriesPrimary(scores: Scores)
    requires scores != [] && NonNegative(scores)
    ensures var primary := DetermineCategories(scores).0;
      (MaxOf(scores) > 0.0 ==> exists i :: 0 <= i < |scores| && scores[i].0 == primary && scores[i].1 == MaxOf(scores)) &&
      (MaxOf(scores) == 0.0 ==> primary == Other)
  {
    var sorted := SortBy(scores, ByValueDesc);
    SortByMembers(scores, ByValueDesc);
    SortBySorted(scores, ByValueDesc);
    ByValueDescOrder(sorted);
    var k :| 0 <= k < |scores| && scores[k] == sorted[0];
    var top :| 0 <= top < |scores| && scores[top].1 == MaxOf(scores);
    var t :| 0 <= t < |sorted| && sorted[t] == scores[top];
    assert sorted[0].1 >= sorted[t].1;
  }

  predicate Passes(p: (FeedbackCategory, real)) {
    p.1 >= MinConfidence
  }

  /** The primary category, up to two secondaries and the confidences kept for a document. */
  datatype Selection = Selection(
    primary: FeedbackCategory,
    secondaries: seq<FeedbackCategory>,
    confidence: map<FeedbackCategory, real>)

  /** The categories whose share reaches the threshold, best first. */
  function Ranked(conf: Scores): Scores {
    SortBy(Filter(conf, Passes), ByValueDesc)
  }

  /**
   * Lines 143-163 of `_categorize_single_document`: filter by the threshold,
   * sort descending, take the first as primary (or `Other`), the next two as
   * secondaries, and the first five as the confidence dict.
   */
  function Select(conf: Scores): Selection {
    var ranked := Ranked(conf);
    Selection(
      if ranked == [] then Other else ranked[0].0,
      SecondariesOf(ranked),
      ToMap(Take(ranked, 5)))
  }

  /** Shares that sum to at most 1 let no more than three categories reach 0.3. */
  lemma {:induction false} AtMostThreePass(conf: Scores)
    requires NonNegative(conf) && SumValues(conf) <= 1.0
    ensures |Filter(conf, Passes)| <= 3
  {
    PassingSum(conf);
  }

  lemma {:induction false} PassingSum(conf: Scores)
    requires NonNegative(conf)
    ensures (|Filter(conf, Passes)| as real) * MinConfidence <= SumValues(conf)
  {
    if conf != [] {
      PassingSum(conf[..|conf| - 1]);
    }
  }

  lemma RankedMembers(conf: Scores)
    requires DistinctBy(conf, Fst)
    ensures var ranked := Ranked(conf);
      DistinctBy(ranked, Fst) &&
      (forall i :: 0 <= i < |ranked| ==> ranked[i] in conf && Passes(ranked[i])) &&
      (forall i :: 0 <= i < |conf| && Passes(conf[i]) ==> conf[i] in ranked) &&
      (forall i, j :: 0 <= i < j < |ranked| ==> ranked[i].1 >= ranked[j].1)
  {
    var f := Filter(conf, Passes);
    var ranked := Ranked(conf);
    FilterMembers(conf, Passes);
    FilterDistinctBy(conf, Passes, Fst);
    SortByDistinctBy(f, ByValueDesc, Fst);
    SortByMembers(f, ByValueDesc);
    SortBySorted(f, ByValueDesc);
    ByValueDescOrder(ranked);
    forall i | 0 <= i < |ranked|
      ensures ranked[i] in conf
    {
      assert ranked[i] in f;
    }
    forall i | 0 <= i < |conf| && Passes(conf[i])
      ensures conf[i] in ranked
    {
      assert conf[i] in f;
      var k :| 0 <= k < |f| && f[k] == conf[i];
    }
  }

  /** What `Select` works with: at most three passing categories, best first, with distinct keys. */
  lemma RankedFacts(conf: Scores)
    requires NonNegative(conf) && SumValues(conf) <= 1.0 && DistinctBy(conf, Fst)
    ensures var ranked := Ranked(conf);
      |ranked| <= 3 && Take(ranked, 5) == ranked && DistinctBy(ranked, Fst) &&
      (forall i :: 0 <= i < |ranked| ==> ranked[i] in conf && Passes(ranked[i])) &&
      (forall i :: 0 <= i < |conf| && Passes(conf[i]) ==> conf[i] in ranked) &&
      (forall i, j :: 0 <= i < j < |ranked| ==> ranked[i].1 >= ranked[j].1)
  {
    AtMostThreePass(conf);
    RankedMembers(conf);
  }

  /** Every passing share is in the dict built from the ranked pairs, under its own category. */
  lemma RankedMapCovers(conf: Scores, ranked: Scores)
    requires DistinctBy(ranked, Fst)
    requires forall i :: 0 <= i < |conf| && Passes(conf[i]) ==> conf[i] in ranked
    ensures forall i :: 0 <= i < |conf| && conf[i].1 >= MinConfidence ==>
              conf[i].0 in ToMap(ranked) && ToMap(ranked)[conf[i].0] == conf[i].1
  {
    ToMapValues(ranked);
    forall i | 0 <= i < |conf| && conf[i].1 >= MinConfidence
      ensures conf[i].0 in ToMap(ranked) && ToMap(ranked)[conf[i].0] == conf[i].1
    {
      var k :| 0 <= k < |ranked| && ranked[k] == conf[i];
      assert KeysOf(ranked)[k] == conf[i].0;
    }
  }

  /** Every entry of the dict built from the ranked pairs is a passing share. */
  lemma RankedMapSound(conf: Scores, ranked: Scores)
    requires DistinctBy(ranked, Fst)
    requires forall i :: 0 <= i < |ranked| ==> ranked[i] in conf && Passes(ranked[i])
    ensures forall k :: k in ToMap(ranked) ==>
              exists i :: 0 <= i < |conf| && conf[i].0 == k && conf[i].1 == ToMap(ranked)[k] && conf[i].1 >= MinConfidence
  {
    ToMapValues(ranked);
    forall k | k in ToMap(ranked)
      ensures exists i :: 0 <= i < |conf| && conf[i].0 == k && conf[i].1 == ToMap(ranked)[k] && conf[i].1 >= MinConfidence
    {
      var j :| 0 <= j < |ranked| && KeysOf(ranked)[j] == k;
      var i :| 0 <= i < |conf| && conf[i] == ranked[j];
    }
  }

  /**
   * The confidence dict holds exactly the categories that reach the
   * threshold, each with its own share.
   */
  lemma SelectConfidence(conf: Scores)
    requires NonNegative(conf) && SumValues(conf) <= 1.0 && DistinctBy(conf, Fst)
    ensures var s := Select(conf);
      (forall i :: 0 <= i < |conf| && conf[i].1 >= MinConfidence ==>
         conf[i].0 in s.confidence && s.confidence[conf[i].0] == conf[i].1) &&
      (forall k :: k in s.confidence ==>
         exists i :: 0 <= i < |conf| && conf[i].0 == k && conf[i].1 == s.confidence[k] && conf[i].1 >= MinConfidence)
  {
    var ranked := Ranked(conf);
    RankedFacts(conf);
    assert Select(conf).confidence == ToMap(ranked);
    RankedMapCovers(conf, ranked);
    RankedMapSound(conf, ranked);
  }

  /** The first ranked pair has the largest share of all. */
  lemma RankedFirstIsBest(conf: Scores, ranked: Scores)
    requires ranked != []
    requires forall i :: 0 <= i < |conf| && Passes(conf[i]) ==> conf[i] in ranked
    requires forall i :: 0 <= i < |ranked| ==> Passes(ranked[i])
    requires forall i, j :: 0 <= i < j < |ranked| ==> ranked[i].1 >= ranked[j].1
    ensures forall i :: 0 <= i < |conf| ==> conf[i].1 <= ranked[0].1
  {
    forall i | 0 <= i < |conf|
      ensures conf[i].1 <= ranked[0].1
    {
      if Passes(conf[i]) {
        var k :| 0 <= k < |ranked| && ranked[k] == conf[i];
      }
    }
  }

  /**
   * When no share reaches the threshold, the primary category is `Other`,
   * with no secondaries and an empty confidence dict.
   */
  lemma SelectNone(conf: Scores)
    requires forall i :: 0 <= i < |conf| ==> conf[i].1 < MinConfidence
    ensures Select(conf) == Selection(Other, [], map[])
  {
    var ranked := Ranked(conf);
    var f := Filter(conf, Passes);
    FilterMembers(conf, Passes);
    assert f == [];
  }

  /** When some share reaches the threshold, the primary category has the largest share of all. */
  lemma SelectBest(conf: Scores)
    requires DistinctBy(conf, Fst)
    requires exists i :: 0 <= i < |conf| && conf[i].1 >= MinConfidence
    ensures Select(conf).primary in Select(conf).confidence
    ensures forall i :: 0 <= i < |conf| ==> conf[i].1 <= Select(conf).confidence[Select(conf).primary]
  {
    var ranked := Ranked(conf);
    RankedMembers(conf);
    var i0 :| 0 <= i0 < |conf| && conf[i0].1 >= MinConfidence;
    assert conf[i0] in ranked;
    RankedFirstIsBest(conf, ranked);
    var top := Take(ranked, 5);
    assert top[0] == ranked[0];
    assert DistinctBy(top, Fst);
    ToMapValues(top);
    assert KeysOf(top)[0] == Select(conf).primary;
  }

  /** The secondaries `Select` takes from a ranked list: `ranked[1:3]`. */
  function SecondariesOf(ranked: Scores): seq<FeedbackCategory> {
    KeysOf(if |ranked| <= 1 then [] else ranked[1..if |ranked| < 3 then |ranked| else 3])
  }

  /** The secondaries are distinct categories other than the primary one. */
  lemma SecondariesDistinct(ranked: Scores)
    requires |ranked| > 1 && DistinctBy(ranked, Fst)
    ensures var sec := SecondariesOf(ranked);
      |sec| <= 2 && Distinct(sec) && ranked[0].0 !in sec &&
      forall i :: 0 <= i < |sec| ==> sec[i] == ranked[i + 1].0
  {
    var sec := SecondariesOf(ranked);
    forall i, j | 0 <= i < j < |sec|
      ensures sec[i] != sec[j]
    {
      assert Fst(ranked[i + 1]) != Fst(ranked[j + 1]);
    }
    forall i | 0 <= i < |sec|
      ensures sec[i] != ranked[0].0
    {
      assert Fst(ranked[0]) != Fst(ranked[i + 1]);
    }
  }

  /** The secondaries' shares are in the confidence dict, passing, and no larger than the primary's. */
  lemma SecondariesInMap(ranked: Scores)
    requires |ranked| > 1 && DistinctBy(ranked, Fst)
    requires forall i :: 0 <= i < |ranked| ==> Passes(ranked[i])
    requires forall i, j :: 0 <= i < j < |ranked| ==> ranked[i].1 >= ranked[j].1
    ensures var sec := SecondariesOf(ranked);
      var m := ToMap(Take(ranked, 5));
      ranked[0].0 in m &&
      (forall i :: 0 <= i < |sec| ==>
         sec[i] in m && m[sec[i]] == ranked[i + 1].1 && m[sec[i]] <= m[ranked[0].0] && m[sec[i]] >= MinConfidence) &&
      (|sec| == 2 ==> m[sec[0]] >= m[sec[1]])
  {
    var sec := SecondariesOf(ranked);
    var top := Take(ranked, 5);
    assert DistinctBy(top, Fst);
    ToMapValues(top);
    assert KeysOf(top)[0] == ranked[0].0;
    forall i | 0 <= i < |sec|
      ensures sec[i] in ToMap(top) && ToMap(top)[sec[i]] == ranked[i + 1].1
    {
      assert KeysOf(top)[i + 1] == sec[i];
    }
  }

  /**
   * At most two secondaries, each a different category that reaches the
   * threshold, never the primary one, with shares no larger than the
   * primary's, in descending order.
   */
  lemma SelectSecondaries(conf: Scores)
    requires DistinctBy(conf, Fst)
    ensures var s := Select(conf);
      |s.secondaries| <= 2 &&
      Distinct(s.secondaries) &&
      s.primary !in s.secondaries &&
      (forall i :: 0 <= i < |s.secondaries| ==>
         s.secondaries[i] in s.confidence && s.confidence[s.secondaries[i]] <= s.confidence[s.primary] &&
         s.confidence[s.secondaries[i]] >= MinConfidence) &&
      (|s.secondaries| == 2 ==> s.confidence[s.secondaries[0]] >= s.confidence[s.secondaries[1]])
  {
    var ranked := Ranked(conf);
    RankedMembers(conf);
    if |ranked| > 1 {
      SecondariesDistinct(ranked);
      SecondariesInMap(ranked);
    }
  }

  /**
   * With at most three passing shares, the confidence dict holds nothing but
   * the primary category and the secondaries: the secondaries are exactly the
   * passing categories after the best one.
   */
  lemma SelectCovers(conf: Scores)
    requires NonNegative(conf) && SumValues(conf) <= 1.0 && DistinctBy(conf, Fst)
    ensures var s := Select(conf);
      |s.confidence| <= 3 &&
      forall k :: k in s.confidence ==> k == s.primary || k in s.secondaries
  {
    RankedFacts(conf);
    RankedCovers(Ranked(conf));
  }

  /** A ranked list of at most three pairs: every key is the first one or one of `ranked[1:3]`. */
  lemma RankedCovers(ranked: Scores)
    requires |ranked| <= 3
    ensures |ToMap(ranked)| <= 3
    ensures forall k :: k in ToMap(ranked) ==> k == ranked[0].0 || k in SecondariesOf(ranked)
  {
    ToMapSize(ranked);
    var keys := KeysOf(ranked);
    forall k | k in ToMap(ranked)
      ensures k == ranked[0].0 || k in SecondariesOf(ranked)
    {
      var j :| 0 <= j < |keys| && keys[j] == k;
      if j > 0 {
        assert SecondariesOf(ranked)[j - 1] == k;
      }
    }
  }

  // ---------------------------------------------------------------- keywords

  /** `re.findall(r'\b[a-z]{3,}\b', ...)` keeps whole word tokens of three or more lowercase letters. */
  predicate IsLetterWord(w: string) {
    |w| >= 3 && forall i :: 0 <= i < |w| ==> IsLowerLetter(w[i])
  }

  /** The words `_extract_keywords` never counts. */
  const CommonWords: set<string> :=
    {"the", "and", "for", "are", "but", "not", "you", "all", "any", "can", "our", "was", "has",
     "had", "she", "its", "her", "with", "this", "that", "from", "have", "they", "will",
     "would", "there", "their", "what", "about", "which", "when", "make", "like", "time",
     "just", "know", "take", "into", "year", "your", "good", "some", "could", "them", "other",
     "than", "then", "look", "only", "come", "over", "think", "also", "back", "after", "used",
     "two", "how", "work", "first", "well", "way", "even", "new", "want", "because", "these",
     "give", "most", "should", "need", "where", "why", "who", "whom", "whose", "those", "here",
     "while", "before", "since", "until", "although", "though", "if", "unless", "whereas",
     "whether", "either", "neither", "both", "each", "every", "none", "such", "own", "same",
     "more", "less", "least", "few", "many", "much", "several", "one", "three", "second",
     "last", "next", "previous", "different", "another", "certain", "various"}

  predicate Counted(w: string) {
    w !in CommonWords && |w| > 2
  }

  /** The words fed to the `Counter`, in text order. */
  function KeywordCandidates(content: string): (r: seq<string>)
    ensures forall i :: 0 <= i < |r| ==> Counted(r[i])
  {
    Filter(Filter(WordTokens(Lower(content)), IsLetterWord), Counted)
  }

  /** `_extract_keywords`: up to 20 counted words, most frequent first. */
  function Keywords(content: string): seq<string> {
    MostCommon(KeywordCandidates(content), 20)
  }

  /**
   * Every keyword is a whole lowercase word of at least three letters, not a
   * common word; there are at most 20, all different, by non-increasing count.
   */
  lemma KeywordsSpec(content: string)
    ensures var r := Keywords(content);
      |r| <= 20 && Distinct(r) &&
      (forall i :: 0 <= i < |r| ==> IsLetterWord(r[i]) && r[i] !in CommonWords) &&
      (forall i, j :: 0 <= i < j < |r| ==>
         Count(KeywordCandidates(content), r[i]) >= Count(KeywordCandidates(content), r[j])) &&
      (forall i :: 0 <= i < |r| ==> r[i] in KeywordCandidates(content)) &&
      (forall w :: w in KeywordCandidates(content) && w !in r ==>
         |r| == 20 && forall i :: 0 <= i < 20 ==> Count(KeywordCandidates(content), w) <= Count(KeywordCandidates(content), r[i]))
  {
    var words := Filter(WordTokens(Lower(content)), IsLetterWord);
    var cands := KeywordCandidates(content);
    MostCommonSpec(cands, 20);
    forall w | w in cands && w !in Keywords(content)
      ensures |Keywords(content)| == 20 &&
        forall i :: 0 <= i < 20 ==> Count(cands, w) <= Count(cands, Keywords(content)[i])
    {
      MostCommonCut(cands, 20, w);
    }
    FilterMembers(words, Counted);
    forall w | w in cands
      ensures IsLetterWord(w)
    {
      assert w in words;
    }
  }

  // ------------------------------------------------------------------ topics

  /** `re.sub(r'^[^\w]+|[^\w]+$', '', t)`: without leading or trailing non-word characters. */
  function TrimNonWord(t: string): (r: string)
    ensures |r| <= |t|
    ensures r == [] || (IsWordChar(r[0]) && IsWordChar(r[|r| - 1]))
    decreases |t|
  {
    if t == [] then []
    else if !IsWordChar(t[0]) then TrimNonWord(t[1..])
    else if !IsWordChar(t[|t| - 1]) then TrimNonWord(t[..|t| - 1])
    else t
  }

  /**
   * The clean-up of lines 209-210: trim non-word characters at both ends,
   * then collapse each whitespace run to one space (the ends are already
   * word characters, so the final `strip()` removes nothing).
   */
  function CleanTopic(t: string): string {
    Join(Words(TrimNonWord(t)), " ")
  }

  /** A captured phrase kept by line 202: non-empty after `strip()`, at most five words. */
  predicate KeptPhrase(t: string) {
    t != [] && |Words(t)| <= 5
  }

  /** The `(topic, confidence)` pairs the first loop of `_extract_topics` collects. */
  function Candidates(found: seq<(string, real)>): (r: seq<(string, real)>)
    ensures |r| <= |found|
    ensures forall i :: 0 <= i < |r| ==> KeptPhrase(r[i].0)
  {
    if found == [] then []
    else
      var last := found[|found| - 1];
      var topic := Strip(last.0);
      Candidates(found[..|found| - 1]) + (if KeptPhrase(topic) then [(topic, last.1)] else [])
  }

  lemma CandidatesStep(found: seq<(string, real)>, i: nat)
    requires i < |found|
    ensures Candidates(found[..i + 1])
            == Candidates(found[..i]) + (if KeptPhrase(Strip(found[i].0)) then [(Strip(found[i].0), found[i].1)] else [])
  {
    assert found[..i + 1][..i] == found[..i];
  }

  /** A cleaned topic is scored when it has at least three characters (line 212). */
  predicate Scored(t: string) {
    |t| >= 3
  }

  /** The cleaned `(topic, confidence)` pairs the second loop of `_extract_topics` adds up, in order. */
  function CleanedPairs(cands: seq<(string, real)>): (r: seq<(string, real)>)
    ensures forall i :: 0 <= i < |r| ==> Scored(r[i].0)
  {
    if cands == [] then []
    else
      var last := cands[|cands| - 1];
      var t := CleanTopic(last.0);
      CleanedPairs(cands[..|cands| - 1]) + (if Scored(t) then [(t, last.1)] else [])
  }

  lemma CleanedPairsStep(cands: seq<(string, real)>, i: nat)
    requires i < |cands|
    ensures CleanedPairs(cands[..i + 1])
            == CleanedPairs(cands[..i]) + (if Scored(CleanTopic(cands[i].0)) then [(CleanTopic(cands[i].0), cands[i].1)] else [])
  {
    assert cands[..i + 1][..i] == cands[..i];
  }

  /** `topic_scores[t] += c` on an insertion-ordered dict. */
  function AddScore(ts: seq<(string, real)>, t: string, c: real): (r: seq<(string, real)>)
    ensures KeysOf(r) == if t in KeysOf(ts) then KeysOf(ts) else KeysOf(ts) + [t]
  {
    if t in KeysOf(ts) then seq(|ts|, i requires 0 <= i < |ts| => if ts[i].0 == t then (t, ts[i].1 + c) else ts[i])
    else ts + [(t, c)]
  }

  /** The `defaultdict(float)` after `scores[t] += c` for every pair, in order. */
  function Accumulate(ps: seq<(string, real)>): seq<(string, real)> {
    if ps == [] then []
    else
      var last := ps[|ps| - 1];
      AddScore(Accumulate(ps[..|ps| - 1]), last.0, last.1)
  }

  lemma AccumulateAppend(ps: seq<(string, real)>, x: (string, real))
    ensures Accumulate(ps + [x]) == AddScore(Accumulate(ps), x.0, x.1)
  {
    assert (ps + [x])[..|ps|] == ps;
  }

  /** The total of the values paired with `t`. */
  function TotalFor(ps: seq<(string, real)>, t: string): real {
    if ps == [] then 0.0
    else TotalFor(ps[..|ps| - 1], t) + (if ps[|ps| - 1].0 == t then ps[|ps| - 1].1 else 0.0)
  }

  lemma {:induction false} TotalForAbsent(ps: seq<(string, real)>, t: string)
    requires t !in KeysOf(ps)
    ensures TotalFor(ps, t) == 0.0
  {
    if ps != [] {
      var init := ps[..|ps| - 1];
      assert KeysOf(ps) == KeysOf(init) + [ps[|ps| - 1].0];
      TotalForAbsent(init, t);
    }
  }

  /** The dict's keys are the pairs' keys, once each, in order of first occurrence. */
  lemma {:induction false} AccumulateKeys(ps: seq<(string, real)>)
    ensures KeysOf(Accumulate(ps)) == Dedup(KeysOf(ps))
  {
    if ps != [] {
      var init := ps[..|ps| - 1];
      AccumulateKeys(init);
      assert KeysOf(ps)[..|ps| - 1] == KeysOf(init);
    }
  }

  /** Each key's value is the total of the values paired with it. */
  lemma {:induction false} AccumulateValues(ps: seq<(string, real)>)
    ensures forall i :: 0 <= i < |Accumulate(ps)| ==> Accumulate(ps)[i].1 == TotalFor(ps, Accumulate(ps)[i].0)
  {
    if ps != [] {
      var init := ps[..|ps| - 1];
      var last := ps[|ps| - 1];
      var ts := Accumulate(init);
      var r := Accumulate(ps);
      AccumulateValues(init);
      AccumulateKeys(init);
      forall i | 0 <= i < |r|
        ensures r[i].1 == TotalFor(ps, r[i].0)
      {
        if i < |ts| {
          assert KeysOf(r)[i] == KeysOf(ts)[i];
        } else {
          TotalForAbsent(init, last.0);
        }
      }
    }
  }

  /** `[t for t, _ in sorted(topic_scores.items(), key=..., reverse=True)]`. */
  function RankTopics(totals: seq<(string, real)>): seq<string> {
    KeysOf(SortBy(totals, ByValueDesc))
  }

  /** `_extract_topics` on the captured `(phrase, confidence)` pairs, in pattern order. */
  function Topics(found: seq<(string, real)>): seq<string> {
    RankTopics(Accumulate(CleanedPairs(Candidates(found))))
  }

  /** The accumulated dict has one entry per key. */
  lemma AccumulatedDistinct(ps: seq<(string, real)>)
    ensures DistinctBy(Accumulate(ps), Fst)
  {
    var totals := Accumulate(ps);
    AccumulateKeys(ps);
    forall i, j | 0 <= i < j < |totals|
      ensures Fst(totals[i]) != Fst(totals[j])
    {
      assert KeysOf(totals)[i] == totals[i].0 && KeysOf(totals)[j] == totals[j].0;
    }
  }

  /** The accumulated dict's entries are exactly the keys of the pairs, each with its total. */
  lemma AccumulatedEntries(ps: seq<(string, real)>)
    ensures var totals := Accumulate(ps);
      (forall i :: 0 <= i < |totals| ==> totals[i].0 in KeysOf(ps) && totals[i].1 == TotalFor(ps, totals[i].0)) &&
      (forall i :: 0 <= i < |ps| ==> ps[i].0 in KeysOf(totals))
  {
    var totals := Accumulate(ps);
    AccumulateKeys(ps);
    AccumulateValues(ps);
    forall i | 0 <= i < |totals|
      ensures totals[i].0 in KeysOf(ps)
    {
      assert KeysOf(totals)[i] == totals[i].0;
    }
    forall i | 0 <= i < |ps|
      ensures ps[i].0 in KeysOf(totals)
    {
      assert KeysOf(ps)[i] == ps[i].0;
    }
  }

  /**
   * Ranking an accumulated dict lists each of its keys once, by
   * non-increasing total.
   */
  lemma RankTopicsSpec(ps: seq<(string, real)>)
    ensures var r := RankTopics(Accumulate(ps));
      Distinct(r) &&
      (forall i :: 0 <= i < |r| ==> r[i] in KeysOf(ps)) &&
      (forall i :: 0 <= i < |ps| ==> ps[i].0 in r) &&
      (forall i, j :: 0 <= i < j < |r| ==> TotalFor(ps, r[i]) >= TotalFor(ps, r[j]))
  {
    var totals := Accumulate(ps);
    AccumulatedDistinct(ps);
    AccumulatedEntries(ps);
    RankedKeysDistinct(totals);
    RankedKeysMembers(totals, ps);
    RankedKeysOrder(totals, ps);
  }

  lemma RankedKeysDistinct(totals: seq<(string, real)>)
    requires DistinctBy(totals, Fst)
    ensures Distinct(RankTopics(totals))
  {
    var sorted := SortBy(totals, ByValueDesc);
    var r := RankTopics(totals);
    SortByDistinctBy(totals, ByValueDesc, Fst);
    forall i, j | 0 <= i < j < |r|
      ensures r[i] != r[j]
    {
      assert Fst(sorted[i]) != Fst(sorted[j]);
    }
  }

  lemma RankedKeysMembers(totals: seq<(string, real)>, ps: seq<(string, real)>)
    requires forall i :: 0 <= i < |totals| ==> totals[i].0 in KeysOf(ps)
    requires forall i :: 0 <= i < |ps| ==> ps[i].0 in KeysOf(totals)
    ensures forall i :: 0 <= i < |RankTopics(totals)| ==> RankTopics(totals)[i] in KeysOf(ps)
    ensures forall i :: 0 <= i < |ps| ==> ps[i].0 in RankTopics(totals)
  {
    var sorted := SortBy(totals, ByValueDesc);
    var r := RankTopics(totals);
    SortByMembers(totals, ByValueDesc);
    forall i | 0 <= i < |r|
      ensures r[i] in KeysOf(ps)
    {
      var k :| 0 <= k < |totals| && totals[k] == sorted[i];
    }
    forall i | 0 <= i < |ps|
      ensures ps[i].0 in r
    {
      var k :| 0 <= k < |totals| && KeysOf(totals)[k] == ps[i].0;
      var j :| 0 <= j < |sorted| && sorted[j] == totals[k];
      assert r[j] == ps[i].0;
    }
  }

  lemma RankedKeysOrder(totals: seq<(string, real)>, ps: seq<(string, real)>)
    requires forall i :: 0 <= i < |totals| ==> totals[i].1 == TotalFor(ps, totals[i].0)
    ensures forall i, j :: 0 <= i < j < |RankTopics(totals)| ==>
              TotalFor(ps, RankTopics(totals)[i]) >= TotalFor(ps, RankTopics(totals)[j])
  {
    var sorted := SortBy(totals, ByValueDesc);
    var r := RankTopics(totals);
    SortByMembers(totals, ByValueDesc);
    SortBySorted(totals, ByValueDesc);
    ByValueDescOrder(sorted);
    forall i | 0 <= i < |r|
      ensures sorted[i].1 == TotalFor(ps, r[i])
    {
      var k :| 0 <= k < |totals| && totals[k] == sorted[i];
    }
  }

  /**
   * The topics are the distinct scored topics, each at least three
   * characters long, by non-increasing total confidence.
   */
  lemma TopicsSpec(found: seq<(string, real)>)
    ensures var ps := CleanedPairs(Candidates(found));
      var r := Topics(found);
      Distinct(r) &&
      (forall i :: 0 <= i < |r| ==> |r[i]| >= 3 && r[i] in KeysOf(ps)) &&
      (forall i :: 0 <= i < |ps| ==> ps[i].0 in r) &&
      (forall i, j :: 0 <= i < j < |r| ==> TotalFor(ps, r[i]) >= TotalFor(ps, r[j]))
  {
    var ps := CleanedPairs(Candidates(found));
    RankTopicsSpec(ps);
    forall i | 0 <= i < |Topics(found)|
      ensures |Topics(found)[i]| >= 3
    {
      var k :| 0 <= k < |ps| && KeysOf(ps)[k] == Topics(found)[i];
    }
  }

  /** The first loop of `_extract_topics`: the stripped phrases of at most five words. */
  method CollectCandidates(found: seq<(string, real)>) returns (cands: seq<(string, real)>)
    ensures cands == Candidates(found)
  {
    cands := [];
    for i := 0 to |found|
      invariant cands == Candidates(found[..i])
    {
      CandidatesStep(found, i);
      var topic := Strip(found[i].0);
      if topic != [] && |Words(topic)| <= 5 {
        cands := cands + [(topic, found[i].1)];
      }
    }
    assert found[..|found|] == found;
  }

  /** One more candidate adds its confidence to its cleaned topic, when that topic is scored. */
  lemma AccumulateCleanedStep(cands: seq<(string, real)>, i: nat)
    requires i < |cands|
    ensures var t := CleanTopic(cands[i].0);
      var before := Accumulate(CleanedPairs(cands[..i]));
      Accumulate(CleanedPairs(cands[..i + 1])) == if Scored(t) then AddScore(before, t, cands[i].1) else before
  {
    var t := CleanTopic(cands[i].0);
    CleanedPairsStep(cands, i);
    if Scored(t) {
      AccumulateAppend(CleanedPairs(cands[..i]), (t, cands[i].1));
    } else {
      assert CleanedPairs(cands[..i + 1]) == CleanedPairs(cands[..i]);
    }
  }

  /** The second loop of `_extract_topics`: clean each phrase and add its confidence to its topic. */
  method AccumulateTopics(cands: seq<(string, real)>) returns (scores: seq<(string, real)>)
    ensures scores == Accumulate(CleanedPairs(cands))
  {
    scores := [];
    for i := 0 to |cands|
      invariant scores == Accumulate(CleanedPairs(cands[..i]))
    {
      AccumulateCleanedStep(cands, i);
      var topic := CleanTopic(cands[i].0);
      if |topic| >= 3 {
        scores := AddScore(scores, topic, cands[i].1);
      }
    }
    assert cands[..|cands|] == cands;
  }

  /**
   * `_extract_topics`: keep the short captured phrases, add up the
   * confidence of each cleaned topic, and list the topics by total.
   */
  method ExtractTopics(found: seq<(string, real)>) returns (topics: seq<string>)
    ensures topics == Topics(found)
  {
    var cands := CollectCandidates(found);
    var scores := AccumulateTopics(cands);
    topics := RankTopics(scores);
  }

  // ------------------------------------------------------------ per document

  /**
   * The regular-expression matching the agent does on the lowercased text:
   * the match count of each category pattern, and the `(phrase, confidence)`
   * pairs the topic patterns capture, pattern by pattern.
   */
  datatype CategoryMatchers = CategoryMatchers(
    patterns: string -> PatternCounts,
    topics: string -> seq<(string, real)>)

  /** The category shares `_determine_categories` hands to the selection step. */
  function SharesOf(content: string, m: CategoryMatchers): Scores {
    DetermineCategories(Normalise(RawScores(m.patterns(content)))).1
  }

  /** `_categorize_single_document`. */
  function CategoryOf(doc: CleanedDocument, m: CategoryMatchers): CategoryResult {
    var content := Lower(doc.cleanedContent);
    var s := Select(SharesOf(content, m));
    CategoryResult(
      doc.originalId, s.primary, s.secondaries, s.confidence,
      Take(Keywords(content), 20), Take(Topics(m.topics(content)), 10))
  }

  method CategorizeSingleDocument(doc: CleanedDocument, m: CategoryMatchers) returns (r: CategoryResult)
    ensures r == CategoryOf(doc, m)
  {
    var content := Lower(doc.cleanedContent);
    var scores := RuleBasedCategorization(m.patterns(content));
    var topics := ExtractTopics(m.topics(content));
    var keywords := Keywords(content);
    var (_, confidences) := DetermineCategories(scores);
    var s := Select(confidences);
    r := CategoryResult(doc.originalId, s.primary, s.secondaries, s.confidence, Take(keywords, 20), Take(topics, 10));
  }

  /** `categorize_feedback`: one result per document, in order. */
  method CategorizeFeedback(documents: seq<CleanedDocument>, m: CategoryMatchers) returns (results: seq<CategoryResult>)
    ensures results == MapSeq(documents, (d: CleanedDocument) => CategoryOf(d, m))
  {
    ghost var categorize := (d: CleanedDocument) => CategoryOf(d, m);
    results := [];
    for i := 0 to |documents|
      invariant results == MapSeq(documents[..i], categorize)
    {
      var r := CategorizeSingleDocument(documents[i], m);
      MapSeqStep(documents, i, categorize);
      results := results + [r];
    }
    assert documents[..|documents|] == documents;
  }

  /** The normalised scores: the seven pattern categories in order, each in [0, 1]. */
  lemma NormalisedFacts(counts: PatternCounts)
    ensures var norm := Normalise(RawScores(counts));
      |norm| == 7 && NonNegative(norm) && DistinctBy(norm, Fst) &&
      forall i :: 0 <= i < 7 ==> norm[i].0 == PatternCategories[i]
  {
    var raw := RawScores(counts);
    NormaliseRange(raw);
    PatternKeysDistinct(Normalise(raw));
  }

  /** Pairs keyed by the seven pattern categories in order have distinct keys. */
  lemma PatternKeysDistinct(ss: Scores)
    requires |ss| == 7 && forall i :: 0 <= i < 7 ==> ss[i].0 == PatternCategories[i]
    ensures DistinctBy(ss, Fst)
  {
    forall i, j | 0 <= i < j < 7
      ensures Fst(ss[i]) != Fst(ss[j])
    {
    }
  }

  /** The shares handed to the selection name the seven pattern categories, each once. */
  lemma SharesOfKeys(content: string, m: CategoryMatchers)
    ensures var conf := SharesOf(content, m);
      |conf| == 7 && DistinctBy(conf, Fst) &&
      forall i :: 0 <= i < 7 ==> conf[i].0 in PatternCategories
  {
    var norm := Normalise(RawScores(m.patterns(content)));
    NormalisedFacts(m.patterns(content));
    DetermineCategoriesKeys(norm);
    var conf := SharesOf(content, m);
    forall i | 0 <= i < 7
      ensures conf[i].0 in PatternCategories
    {
      var k :| 0 <= k < 7 && KeysOf(norm)[k] == conf[i].0;
    }
  }

  /** The shares handed to the selection lie in [0, 1] and sum to 1, or are all 0. */
  lemma SharesOfRange(content: string, m: CategoryMatchers)
    ensures var conf := SharesOf(content, m);
      NonNegative(conf) && (forall i :: 0 <= i < |conf| ==> conf[i].1 <= 1.0) &&
      (SumValues(conf) == 1.0 || forall i :: 0 <= i < |conf| ==> conf[i].1 == 0.0)
  {
    NormalisedFacts(m.patterns(content));
    DetermineCategoriesShares(Normalise(RawScores(m.patterns(content))));
  }

  /**
   * A document's categories: its own id, a primary category, at most two
   * different secondaries, and a confidence dict holding exactly the pattern
   * categories whose share reaches 0.3, the primary's share the largest; at
   * most 20 keywords and 10 topics.
   */
  lemma CategoryOfSpec(doc: CleanedDocument, m: CategoryMatchers)
    ensures var r := CategoryOf(doc, m);
      r.documentId == doc.originalId &&
      |r.keywords| <= 20 && |r.topics| <= 10 &&
      |r.secondaryCategories| <= 2 && Distinct(r.secondaryCategories) &&
      r.primaryCategory !in r.secondaryCategories &&
      (forall k :: k in r.categoryConfidence ==>
         k in PatternCategories && MinConfidence <= r.categoryConfidence[k] <= 1.0) &&
      (r.primaryCategory == Other || r.primaryCategory in r.categoryConfidence) &&
      (r.primaryCategory in r.categoryConfidence ==>
         forall k :: k in r.categoryConfidence ==> r.categoryConfidence[k] <= r.categoryConfidence[r.primaryCategory]) &&
      |r.categoryConfidence| <= 3 &&
      (forall k :: k in r.categoryConfidence ==> k == r.primaryCategory || k in r.secondaryCategories) &&
      (forall i :: 0 <= i < |r.secondaryCategories| ==>
         r.secondaryCategories[i] in r.categoryConfidence) &&
      (|r.secondaryCategories| == 2 ==>
         r.categoryConfidence[r.secondaryCategories[0]] >= r.categoryConfidence[r.secondaryCategories[1]]) &&
      (forall i :: 0 <= i < 7 && SharesOf(Lower(doc.cleanedContent), m)[i].1 >= MinConfidence ==>
         var (c, share) := SharesOf(Lower(doc.cleanedContent), m)[i];
         c in r.categoryConfidence && r.categoryConfidence[c] == share)
  {
    var content := Lower(doc.cleanedContent);
    var conf := SharesOf(content, m);
    SharesOfKeys(content, m);
    SharesOfRange(content, m);
    SelectSecondaries(conf);
    if forall i :: 0 <= i < |conf| ==> conf[i].1 < MinConfidence {
      SelectNone(conf);
    } else {
      SumValuesNonNegative(conf);
      SelectConfidence(conf);
      SelectBest(conf);
      SelectCovers(conf);
    }
  }

  /** A document that matches no category pattern is categorised as `Other`, with no secondaries or confidences. */
  lemma NoMatchesGiveOther(doc: CleanedDocument, m: CategoryMatchers)
    requires forall c: FeedbackCategory, k: nat :: m.patterns(Lower(doc.cleanedContent))(c)(k) == 0
    ensures CategoryOf(doc, m).primaryCategory == Other
    ensures CategoryOf(doc, m).secondaryCategories == []
    ensures CategoryOf(doc, m).categoryConfidence == map[]
  {
    var content := Lower(doc.cleanedContent);
    var raw := RawScores(m.patterns(content));
    forall i | 0 <= i < 7
      ensures raw[i].1 == 0.0
    {
      RawScoresZero(m.patterns(content), i);
    }
    NormaliseRange(raw);
    var norm := Normalise(raw);
    assert norm == raw;
    var sorted := SortBy(norm, ByValueDesc);
    SortByMembers(norm, ByValueDesc);
    forall i | 0 <= i < |sorted|
      ensures sorted[i].1 == 0.0
    {
      var k :| 0 <= k < 7 && norm[k] == sorted[i];
    }
    SumValuesZero(sorted);
    SelectNone(SharesOf(content, m));
  }
}
