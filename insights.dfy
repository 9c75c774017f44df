/**
 * Insight mining over the outputs of the per-document stages
 * (agents/insight_generation.py).  The three result lists are indexed by
 * document id into insertion-ordered dicts; five rule families turn counts,
 * ratios and averages over those dicts into `InsightData` candidates, and the
 * candidates are de-duplicated and sorted by severity and frequency.
 *
 * Dicts are held as their item lists (`seq<(key, value)>`, keys distinct and
 * in insertion order), so iteration order is explicit; lookups go through
 * `ToMap`.  Each rule is a function; the loops that fill the counters and the
 * insight lists are methods proved equal to those functions.
 */
module Insights {
  import opened Wrappers
  import opened Text
  import opened Collections
  import opened Models
  import opened Arith

  /** `min_insight_support`: the fewest items a per-category or issue rule needs. */
  const MinInsightSupport: nat := 3

  /** `min_sentiment_impact`: the smallest absolute average score a category rule reacts to. */
  const MinSentimentImpact: real := 0.3

  function DocId(d: CleanedDocument): string { d.originalId }
  function SentId(s: SentimentAnalysis): string { s.documentId }
  function CatId(c: CategoryResult): string { c.documentId }

  /** `doc_map`, `sent_map` and `cat_map`, each as its items in insertion order. */
  datatype Tables = Tables(
    docs: seq<(string, CleanedDocument)>,
    sents: seq<(string, SentimentAnalysis)>,
    cats: seq<(string, CategoryResult)>)

  /** The three dict comprehensions keyed by id; a repeated id keeps its last record. */
  function TablesOf(documents: seq<CleanedDocument>, sentiments: seq<SentimentAnalysis>,
                    categories: seq<CategoryResult>): Tables
  {
    Tables(IndexBy(documents, DocId), IndexBy(sentiments, SentId), IndexBy(categories, CatId))
  }

  /** `a / n` as a ratio; every caller has `n > 0`. */
  function Ratio(a: nat, n: nat): real {
    if n == 0 then 0.0 else a as real / n as real
  }

  /** `f"{x*100:.1f}"`. */
  function Percent(x: real): string { Fixed(x * 100.0, 1) }

  function Abs(x: real): real { if x < 0.0 then -x else x }

  function Listed(o: Option<InsightData>): seq<InsightData> {
    if o.Some? then [o.value] else []
  }

  function Overall(s: SentimentAnalysis): SentimentType { s.overallSentiment }
  function Primary(c: CategoryResult): FeedbackCategory { c.primaryCategory }
  function CategoryValue(c: FeedbackCategory): string { c.Value() }
  function PrimaryValue(c: CategoryResult): string { c.primaryCategory.Value() }

  /** A ratio exceeds the fraction `t == p / q` exactly when `q * a > p * n`. */
  lemma RatioAboveFraction(a: nat, n: nat, t: real, p: nat, q: nat)
    requires n > 0 && q > 0 && t * q as real == p as real
    ensures Ratio(a, n) > t <==> q * a > p * n
  {
    RatioAbove(a as real, n as real, t);
    assert t * (n as real) * (q as real) == (p * n) as real;
  }

  /** A ratio reaches the fraction `t == p / q` exactly when `q * a >= p * n`. */
  lemma RatioAtLeastFraction(a: nat, n: nat, t: real, p: nat, q: nat)
    requires n > 0 && q > 0 && t * q as real == p as real
    ensures Ratio(a, n) >= t <==> q * a >= p * n
  {
    RatioAtLeast(a as real, n as real, t);
    assert t * (n as real) * (q as real) == (p * n) as real;
  }

  /**
   * `int(a / n * 100)` on the exact ratio is the integer quotient `100 * a / n`;
   * Python multiplies the binary double and can land one lower (29 of 50 gives 57).
   */
  lemma PercentFloor(a: nat, n: nat)
    requires n > 0
    ensures (Ratio(a, n) * 100.0).Floor == (100 * a) / n
  {
    var q := (100 * a) / n;
    assert Ratio(a, n) * 100.0 == (100 * a) as real / n as real;
    assert (q * n) as real == (q as real) * (n as real);
    assert ((q + 1) * n) as real == (q as real + 1.0) * (n as real);
    RatioAtLeast((100 * a) as real, n as real, q as real);
    RatioBelow((100 * a) as real, n as real, q as real + 1.0);
  }

  // ------------------------------------------------------------ sentiment insights

  /** The batch-wide rule for negative sentiment, from the counts of `sentiment_counts`. */
  function NegativeDominance(negative: nat, positive: nat, total: nat, areas: seq<string>): Option<InsightData> {
    if total == 0 then None
    else
      var negativeRatio := Ratio(negative, total);
      var positiveRatio := Ratio(positive, total);
      if negativeRatio > 0.5 then
        Some(InsightData(
          "sentiment_shift",
          "Negative sentiment is dominant in " + Percent(negativeRatio) + "% of feedback",
          [NatToString(negative) + " out of " + NatToString(total) + " feedback items are negative",
           "Positive feedback ratio: " + Percent(positiveRatio) + "%"],
          (negativeRatio * 100.0).Floor,
          if negativeRatio > 0.6 then "high" else "medium",
          Some(if negativeRatio > 0.4 then "increasing" else "stable"),
          areas))
      else None
  }

  /** The batch-wide rule for positive sentiment. */
  function SuccessStory(negative: nat, positive: nat, total: nat, areas: seq<string>): Option<InsightData> {
    if total == 0 then None
    else
      var negativeRatio := Ratio(negative, total);
      var positiveRatio := Ratio(positive, total);
      if positiveRatio > 0.6 then
        Some(InsightData(
          "success_story",
          "Positive sentiment is strong with " + Percent(positiveRatio) + "% of feedback being positive",
          [NatToString(positive) + " out of " + NatToString(total) + " feedback items are positive",
           "Negative feedback ratio: " + Percent(negativeRatio) + "%"],
          (positiveRatio * 100.0).Floor,
          "low",
          Some(if positiveRatio > 0.5 then "increasing" else "stable"),
          areas))
      else None
  }

  /**
   * The negative rule fires exactly when more than half the results are
   * negative; it is high severity exactly above 60%, its frequency is the
   * truncated exact percentage (so between 50 and 100), and its trend is always
   * "increasing" because the 0.4 trend threshold is below the 0.5 trigger.
   */
  lemma NegativeDominanceSpec(negative: nat, positive: nat, total: nat, areas: seq<string>)
    requires negative <= total
    ensures NegativeDominance(negative, positive, total, areas).Some? <==> 2 * negative > total
    ensures NegativeDominance(negative, positive, total, areas).Some? ==>
      var i := NegativeDominance(negative, positive, total, areas).value;
      i.insightType == "sentiment_shift" && i.affectedAreas == areas &&
      i.frequency == (100 * negative) / total && 50 <= i.frequency <= 100
  {
    if total > 0 {
      RatioAboveFraction(negative, total, 0.5, 1, 2);
      PercentFloor(negative, total);
      if 2 * negative > total {
        PercentRange(negative, total, 50);
      }
    }
  }

  /** The negative rule's grading: high exactly above 60%, and always an increasing trend. */
  lemma NegativeDominanceGrade(negative: nat, positive: nat, total: nat, areas: seq<string>)
    ensures NegativeDominance(negative, positive, total, areas).Some? ==>
      var i := NegativeDominance(negative, positive, total, areas).value;
      (i.severity == "high" <==> 5 * negative > 3 * total) &&
      (i.severity == "high" || i.severity == "medium") &&
      i.trendDirection == Some("increasing")
  {
    if total > 0 {
      RatioAboveFraction(negative, total, 0.5, 1, 2);
      RatioAboveFraction(negative, total, 0.6, 3, 5);
      RatioAboveFraction(negative, total, 0.4, 2, 5);
    }
  }

  /**
   * The positive rule fires exactly above 60% positive results, always with
   * severity "low", trend "increasing" and a frequency between 60 and 100.
   */
  lemma SuccessStorySpec(negative: nat, positive: nat, total: nat, areas: seq<string>)
    requires positive <= total
    ensures SuccessStory(negative, positive, total, areas).Some? <==> 5 * positive > 3 * total
    ensures SuccessStory(negative, positive, total, areas).Some? ==>
      var i := SuccessStory(negative, positive, total, areas).value;
      i.insightType == "success_story" && i.affectedAreas == areas &&
      i.frequency == (100 * positive) / total && 60 <= i.frequency <= 100
  {
    if total > 0 {
      RatioAboveFraction(positive, total, 0.6, 3, 5);
      PercentFloor(positive, total);
      if 5 * positive > 3 * total {
        PercentRange(positive, total, 60);
      }
    }
  }

  /** The positive rule is always low severity with an increasing trend. */
  lemma SuccessStoryGrade(negative: nat, positive: nat, total: nat, areas: seq<string>)
    ensures SuccessStory(negative, positive, total, areas).Some? ==>
      var i := SuccessStory(negative, positive, total, areas).value;
      i.severity == "low" && i.trendDirection == Some("increasing")
  {
    if total > 0 {
      RatioAboveFraction(positive, total, 0.6, 3, 5);
      RatioAboveFraction(positive, total, 0.5, 1, 2);
    }
  }

  /** The two batch-wide rules never fire together. */
  lemma BatchRulesExclusive(negative: nat, positive: nat, total: nat, areas: seq<string>)
    requires negative + positive <= total
    ensures NegativeDominance(negative, positive, total, areas).None?
         || SuccessStory(negative, positive, total, areas).None?
  {
    NegativeDominanceSpec(negative, positive, total, areas);
    SuccessStorySpec(negative, positive, total, areas);
  }

  /** More than 60% of a category's results have sentiment `s`. */
  predicate Strong(types: seq<SentimentType>, s: SentimentType) {
    5 * Count(types, s) > 3 * |types|
  }

  /** Drops trailing zeros of a decimal, keeping one digit after the point. */
  function TrimZeros(s: string): (r: string)
    ensures |r| <= |s| && r == s[..|r|]
  {
    if |s| >= 2 && s[|s| - 1] == '0' && s[|s| - 2] != '.' then TrimZeros(s[..|s| - 1]) else s
  }

  /** `repr(x)` of a ratio, shown with sixteen decimals and without trailing zeros. */
  function FloatText(x: real): string { TrimZeros(Fixed(x, 16)) }

  /** One `'key': value` item of the distribution dict of a category. */
  function ShareItem(types: seq<SentimentType>): SentimentType -> string {
    (s: SentimentType) => "'" + s.Value() + "': " + FloatText(Ratio(Count(types, s), |types|))
  }

  /** `str({k.value: v/total for k, v in sentiments.items()})`, sentiments in order of first appearance. */
  function DistributionText(types: seq<SentimentType>): string {
    "{" + Join(MapSeq(Dedup(types), ShareItem(types)), ", ") + "}"
  }

  /** The evidence of a strong-sentiment insight: the count, then the category's whole distribution. */
  function StrongEvidence(types: seq<SentimentType>, s: SentimentType): seq<string> {
    [NatToString(Count(types, s)) + " out of " + NatToString(|types|) + " items in this category are " + s.Value(),
     "Overall sentiment distribution: " + DistributionText(types)]
  }

  /** The insight reporting that sentiment `s` is strong in category `c`. */
  function StrongInsight(c: FeedbackCategory, types: seq<SentimentType>, s: SentimentType): InsightData {
    var count := Count(types, s);
    var ratio := Ratio(count, |types|);
    InsightData(
      "sentiment_shift",
      Capitalize(s.Value()) + " sentiment is particularly strong in the '" + c.Value()
        + "' category (" + Percent(ratio) + "% of feedback)",
      StrongEvidence(types, s),
      count,
      if ratio > 0.7 then "high" else "medium",
      Some(if ratio > 0.5 then "increasing" else "stable"),
      [c.Value()])
  }

  /** The per-category rule for one sentiment of a category whose results have sentiments `types`. */
  function StrongSentiment(c: FeedbackCategory, types: seq<SentimentType>, s: SentimentType): seq<InsightData> {
    if types != [] && Ratio(Count(types, s), |types|) > 0.6 then [StrongInsight(c, types, s)] else []
  }

  function StrongRule(c: FeedbackCategory, types: seq<SentimentType>): SentimentType -> seq<InsightData> {
    s => StrongSentiment(c, types, s)
  }

  /** All per-sentiment rules of one category, sentiments in order of first appearance. */
  function CategoryStrong(c: FeedbackCategory, types: seq<SentimentType>): seq<InsightData> {
    if |types| >= MinInsightSupport then FlatMap(Dedup(types), StrongRule(c, types)) else []
  }

  /**
   * One sentiment's rule fires exactly when it holds more than 60% of the
   * category; the insight counts those results, is high severity above 70%,
   * and its trend is always "increasing".
   */
  lemma StrongSentimentSpec(c: FeedbackCategory, types: seq<SentimentType>, s: SentimentType)
    ensures StrongSentiment(c, types, s) != [] <==> Strong(types, s)
    ensures |StrongSentiment(c, types, s)| <= 1
    ensures StrongSentiment(c, types, s) != [] ==>
      var i := StrongSentiment(c, types, s)[0];
      i.insightType == "sentiment_shift" && i.frequency == Count(types, s) && i.affectedAreas == [c.Value()]
      && i.supportingEvidence == StrongEvidence(types, s) && |i.supportingEvidence| == 2
  {
    StrongFires(c, types, s);
  }

  /** The rule yields at most one insight, and one exactly when the sentiment is strong. */
  lemma StrongFires(c: FeedbackCategory, types: seq<SentimentType>, s: SentimentType)
    ensures StrongSentiment(c, types, s) != [] <==> Strong(types, s)
    ensures |StrongSentiment(c, types, s)| <= 1
  {
    if types != [] {
      RatioAboveFraction(Count(types, s), |types|, 0.6, 3, 5);
    }
  }

  /** A strong-sentiment insight is high severity exactly above 70%, and its trend is always increasing. */
  lemma StrongSentimentGrade(c: FeedbackCategory, types: seq<SentimentType>, s: SentimentType)
    ensures StrongSentiment(c, types, s) != [] ==>
      var i := StrongSentiment(c, types, s)[0];
      i.trendDirection == Some("increasing") && (i.severity == "high" <==> 10 * Count(types, s) > 7 * |types|)
  {
    if types != [] {
      RatioAboveFraction(Count(types, s), |types|, 0.6, 3, 5);
      RatioAboveFraction(Count(types, s), |types|, 0.7, 7, 10);
      RatioAboveFraction(Count(types, s), |types|, 0.5, 1, 2);
    }
  }

  /** Two sentiments cannot both hold more than 60% of the same results. */
  lemma StrongUnique(types: seq<SentimentType>, s: SentimentType, u: SentimentType)
    requires Strong(types, s) && Strong(types, u)
    ensures s == u
  {
    if s != u {
      CountPair(types, s, u);
    }
  }

  lemma StrongFlat(c: FeedbackCategory, types: seq<SentimentType>, ss: seq<SentimentType>)
    requires Distinct(ss)
    ensures |FlatMap(ss, StrongRule(c, types))| <= 1
    ensures FlatMap(ss, StrongRule(c, types)) != [] <==> exists k :: 0 <= k < |ss| && Strong(types, ss[k])
    ensures FlatMap(ss, StrongRule(c, types)) != [] ==>
      exists k :: 0 <= k < |ss| && Strong(types, ss[k]) &&
        FlatMap(ss, StrongRule(c, types)) == StrongSentiment(c, types, ss[k])
  {
    var rule := StrongRule(c, types);
    forall s: SentimentType
      ensures |rule(s)| <= 1 && (rule(s) != [] <==> Strong(types, s))
    {
      StrongFires(c, types, s);
    }
    forall s: SentimentType, u: SentimentType | Strong(types, s) && Strong(types, u)
      ensures s == u
    {
      StrongUnique(types, s, u);
    }
    FlatMapAtMostOne(ss, rule, (s: SentimentType) => Strong(types, s));
  }

  /**
   * A category yields at most one strong-sentiment insight, and yields one
   * exactly when it has at least `MinInsightSupport` results and some
   * sentiment holds more than 60% of them.
   */
  lemma CategoryStrongSpec(c: FeedbackCategory, types: seq<SentimentType>)
    ensures |CategoryStrong(c, types)| <= 1
    ensures CategoryStrong(c, types) != [] <==>
      |types| >= MinInsightSupport && exists s :: Strong(types, s)
    ensures CategoryStrong(c, types) != [] ==>
      exists s :: Strong(types, s) && CategoryStrong(c, types) == StrongSentiment(c, types, s)
  {
    if |types| >= MinInsightSupport {
      var ss := Dedup(types);
      StrongFlat(c, types, ss);
      if s :| Strong(types, s) {
        assert s in types;
        var k :| 0 <= k < |ss| && ss[k] == s;
      }
    }
  }

  function CatSentiment(j: (string, CategoryResult, SentimentAnalysis)): (FeedbackCategory, SentimentType) {
    (j.1.primaryCategory, j.2.overallSentiment)
  }

  /** `category_sentiments` of the sentiment rules: `cat_map` order, ids with a sentiment only. */
  function CategorySentimentGroups(t: Tables): Grouped<FeedbackCategory, SentimentType> {
    GroupPairs(MapSeq(JoinByKey(t.cats, ToMap(t.sents)), CatSentiment))
  }

  function StrongFor(g: Grouped<FeedbackCategory, SentimentType>): FeedbackCategory -> seq<InsightData> {
    c => if c in g.groups then CategoryStrong(c, g.groups[c]) else []
  }

  function SentimentTypes(t: Tables): seq<SentimentType> {
    MapSeq(ValuesOf(t.sents), Overall)
  }

  function PrimaryValues(t: Tables): seq<string> {
    MapSeq(ValuesOf(t.cats), PrimaryValue)
  }

  /** `_generate_sentiment_insights`. */
  function SentimentInsights(t: Tables): seq<InsightData> {
    var types := SentimentTypes(t);
    var g := CategorySentimentGroups(t);
    Listed(NegativeDominance(Count(types, Negative), Count(types, Positive), |types|, PrimaryValues(t)))
      + Listed(SuccessStory(Count(types, Negative), Count(types, Positive), |types|, PrimaryValues(t)))
      + FlatMap(g.keys, StrongFor(g))
  }

  /** The loops of `_generate_sentiment_insights`: the counters, the grouping and the per-category rules. */
  method SentimentInsightsLoop(t: Tables) returns (insights: seq<InsightData>)
    ensures insights == SentimentInsights(t)
  {
    var types := SentimentTypes(t);
    var _, counts := CountAll(types);
    var negative := if Negative in counts then counts[Negative] else 0;
    var positive := if Positive in counts then counts[Positive] else 0;
    assert negative == Count(types, Negative) && positive == Count(types, Positive);
    var areas := PrimaryValues(t);
    var g := Tally(MapSeq(JoinByKey(t.cats, ToMap(t.sents)), CatSentiment));
    var perCategory := ExtendEach(g.keys, StrongFor(g));
    insights := Listed(NegativeDominance(negative, positive, |types|, areas))
              + Listed(SuccessStory(negative, positive, |types|, areas))
              + perCategory;
  }

  // ------------------------------------------------------------ category insights

  function ShareLabel(cs: seq<FeedbackCategory>): FeedbackCategory -> string {
    (c: FeedbackCategory) => c.Value() + " (" + Percent(Ratio(Count(cs, c), |cs|)) + "%)"
  }

  function DistributionLabel(cs: seq<FeedbackCategory>): FeedbackCategory -> string {
    (c: FeedbackCategory) => c.Value() + ": " + Percent(Ratio(Count(cs, c), |cs|)) + "%"
  }

  /** The most-common-category rule over the primary categories `cs` of `cat_map`. */
  function TopCategoryTrend(cs: seq<FeedbackCategory>): Option<InsightData> {
    if cs == [] then None
    else
      var ranked := RankedByCount(cs);
      assert cs[0] in Dedup(cs);
      var top := ranked[0];
      var count := Count(cs, top);
      var ratio := Ratio(count, |cs|);
      if ratio > 0.3 then
        Some(InsightData(
          "trend",
          "The most common feedback category is '" + top.Value() + "' (" + Percent(ratio) + "% of all feedback)",
          [NatToString(count) + " out of " + NatToString(|cs|) + " feedback items are in this category",
           "Top 3 categories: " + Join(MapSeq(Take(ranked, 3), ShareLabel(cs)), ", ")],
          count,
          "medium",
          Some(if ratio > 0.4 then "increasing" else "stable"),
          [top.Value()]))
      else None
  }

  /**
   * The trend rule reports a most frequent primary category; it fires exactly
   * when that category holds more than 30% of the results, always at medium
   * severity, increasing exactly above 40%.
   */
  lemma TopCategoryTrendSpec(cs: seq<FeedbackCategory>)
    ensures TopCategoryTrend(cs).Some? <==> cs != [] && 10 * Count(cs, RankedByCount(cs)[0]) > 3 * |cs|
    ensures TopCategoryTrend(cs).Some? ==>
      var i := TopCategoryTrend(cs).value;
      i.insightType == "trend" && i.affectedAreas == [RankedByCount(cs)[0].Value()] &&
      i.frequency == Count(cs, RankedByCount(cs)[0]) &&
      (forall c :: c in cs ==> Count(cs, c) <= i.frequency)
  {
    if cs != [] {
      RankedByCountTop(cs);
      RatioAboveFraction(Count(cs, RankedByCount(cs)[0]), |cs|, 0.3, 3, 10);
    }
  }

  /** The trend insight is always medium severity, increasing exactly above 40%. */
  lemma TopCategoryTrendGrade(cs: seq<FeedbackCategory>)
    ensures TopCategoryTrend(cs).Some? ==>
      var i := TopCategoryTrend(cs).value;
      i.severity == "medium" && (i.trendDirection == Some("increasing") <==> 5 * i.frequency > 2 * |cs|)
  {
    if cs != [] {
      RankedByCountTop(cs);
      RatioAboveFraction(Count(cs, RankedByCount(cs)[0]), |cs|, 0.3, 3, 10);
      RatioAboveFraction(Count(cs, RankedByCount(cs)[0]), |cs|, 0.4, 2, 5);
    }
  }

  /** `v / total >= 0.1`. */
  function MajorIn(cs: seq<FeedbackCategory>): FeedbackCategory -> bool {
    c => Ratio(Count(cs, c), |cs|) >= 0.1
  }

  /**
   * The spread rule over the primary categories `cs`, whose distinct values in
   * order of first appearance are `distinct` (the keys of `category_counts`).
   */
  function CategorySpread(cs: seq<FeedbackCategory>, distinct: seq<FeedbackCategory>): Option<InsightData> {
    if |distinct| >= 3 then
      var diversity := |Filter(distinct, MajorIn(cs))|;
      if diversity >= 3 then
        Some(InsightData(
          "pattern",
          "Feedback is distributed across " + NatToString(diversity) + " major categories, indicating diverse concerns",
          ["Categories with ≥10% of feedback: " + NatToString(diversity),
           "Category distribution: " + Join(MapSeq(RankedByCount(cs), DistributionLabel(cs)), ", ")],
          diversity,
          "low",
          Some("stable"),
          MapSeq(distinct, CategoryValue)))
      else None
    else None
  }

  /**
   * The spread rule fires only with at least three categories each holding at
   * least 10% of the results; it lists every category present, counts the
   * major ones, and is always low severity and stable.
   */
  lemma CategorySpreadSpec(cs: seq<FeedbackCategory>)
    ensures var r := CategorySpread(cs, Dedup(cs));
      (r.Some? <==> |Filter(Dedup(cs), MajorIn(cs))| >= 3) &&
      (r.Some? ==>
         r.value.insightType == "pattern" && r.value.severity == "low" &&
         3 <= r.value.frequency <= |Dedup(cs)| &&
         r.value.affectedAreas == MapSeq(Dedup(cs), CategoryValue) &&
         r.value.trendDirection == Some("stable"))
  {
  }

  /** A category counted as major holds at least a tenth of the results, and occurs among them. */
  lemma MajorShare(cs: seq<FeedbackCategory>, c: FeedbackCategory)
    requires c in Filter(Dedup(cs), MajorIn(cs))
    ensures 10 * Count(cs, c) >= |cs| && c in cs
  {
    FilterMembers(Dedup(cs), MajorIn(cs));
    assert MajorIn(cs)(c);
    if cs != [] {
      RatioAtLeastFraction(Count(cs, c), |cs|, 0.1, 1, 10);
    }
  }

  function Mean(xs: seq<real>): real {
    if xs == [] then 0.0 else SumReal(xs) / |xs| as real
  }

  /** Comparing a mean with a bound is comparing the sum with the bound times the count. */
  lemma MeanBounds(xs: seq<real>, t: real)
    requires xs != []
    ensures Mean(xs) >= t <==> SumReal(xs) >= t * |xs| as real
    ensures Mean(xs) <= -t <==> SumReal(xs) <= -t * |xs| as real
    ensures Mean(xs) > t <==> SumReal(xs) > t * |xs| as real
  {
    RatioAtLeast(SumReal(xs), |xs| as real, t);
    RatioAtMost(SumReal(xs), |xs| as real, -t);
    RatioAbove(SumReal(xs), |xs| as real, t);
  }

  /** The average-score rule for one category whose results have scores `scores`. */
  function AverageSentiment(c: FeedbackCategory, scores: seq<real>): seq<InsightData> {
    if |scores| >= MinInsightSupport then
      var avg := Mean(scores);
      if Abs(avg) >= MinSentimentImpact then
        [InsightData(
           "sentiment_shift",
           "Feedback in the '" + c.Value() + "' category shows "
             + (if avg > 0.0 then "positive" else "negative") + " sentiment on average",
           ["Average sentiment score: " + Fixed(avg, 2) + " (range: -1 to 1)",
            "Based on " + NatToString(|scores|) + " feedback items in this category"],
           |scores|,
           if Abs(avg) > 0.5 then "high" else "medium",
           Some(if Abs(avg) > 0.4 then "increasing" else "stable"),
           [c.Value()])]
      else []
    else []
  }

  /**
   * A category yields an average-score insight exactly when it has at least
   * `MinInsightSupport` results whose mean lies at least 0.3 from zero.
   */
  lemma AverageSentimentFires(c: FeedbackCategory, scores: seq<real>)
    ensures |AverageSentiment(c, scores)| <= 1
    ensures AverageSentiment(c, scores) != [] <==>
      |scores| >= MinInsightSupport &&
      (SumReal(scores) >= 0.3 * |scores| as real || SumReal(scores) <= -0.3 * |scores| as real)
  {
    if |scores| >= MinInsightSupport {
      MeanBounds(scores, 0.3);
    }
  }

  /** The insight counts the results; it is high severity exactly when the mean lies beyond 0.5 from zero. */
  lemma AverageSentimentFields(c: FeedbackCategory, scores: seq<real>)
    requires AverageSentiment(c, scores) != []
    ensures var i := AverageSentiment(c, scores)[0];
      i.insightType == "sentiment_shift" && i.frequency == |scores| && i.frequency >= 3 &&
      i.affectedAreas == [c.Value()] && (i.severity == "high" <==> Abs(Mean(scores)) > 0.5)
  {
  }

  function SentCategoryScore(j: (string, SentimentAnalysis, CategoryResult)): (FeedbackCategory, real) {
    (j.2.primaryCategory, j.1.sentimentScore as real)
  }

  /** `category_sentiments` of the score rules: `sent_map` order, ids with a categorisation only. */
  function ScoreGroups(t: Tables): Grouped<FeedbackCategory, real> {
    GroupPairs(MapSeq(JoinByKey(t.sents, ToMap(t.cats)), SentCategoryScore))
  }

  function AverageFor(g: Grouped<FeedbackCategory, real>): FeedbackCategory -> seq<InsightData> {
    c => if c in g.groups then AverageSentiment(c, g.groups[c]) else []
  }

  function Primaries(t: Tables): seq<FeedbackCategory> {
    MapSeq(ValuesOf(t.cats), Primary)
  }

  /** `_generate_category_insights`. */
  function CategoryInsights(t: Tables): seq<InsightData> {
    var cs := Primaries(t);
    var g := ScoreGroups(t);
    Listed(TopCategoryTrend(cs)) + Listed(CategorySpread(cs, Dedup(cs))) + FlatMap(g.keys, AverageFor(g))
  }

  /** The loops of `_generate_category_insights`. */
  method CategoryInsightsLoop(t: Tables) returns (insights: seq<InsightData>)
    ensures insights == CategoryInsights(t)
  {
    var cs := Primaries(t);
    var distinct, _ := CountAll(cs);
    var g := Tally(MapSeq(JoinByKey(t.sents, ToMap(t.cats)), SentCategoryScore));
    var perCategory := ExtendEach(g.keys, AverageFor(g));
    insights := Listed(TopCategoryTrend(cs)) + Listed(CategorySpread(cs, distinct)) + perCategory;
  }

  /**
   * The score rules see an id exactly when both `sent_map` and `cat_map`
   * hold it, each such id once (`sent_map` being a dict, as `IndexByDistinct`
   * shows of the tables), and the groups together hold one score per such id.
   */
  lemma ScoreGroupsJoin(t: Tables, id: string)
    requires DistinctBy(t.sents, Fst)
    ensures var j := JoinByKey(t.sents, ToMap(t.cats));
      ((exists i :: 0 <= i < |j| && j[i].0 == id) <==> id in KeysOf(t.sents) && id in KeysOf(t.cats)) &&
      DistinctBy(j, Fst3) &&
      GroupSizes(ScoreGroups(t)) == |j|
  {
    var j := JoinByKey(t.sents, ToMap(t.cats));
    JoinDistinct(t.sents, ToMap(t.cats));
    JoinByKeyIds(t.sents, ToMap(t.cats), id);
    GroupPairsTotal(MapSeq(j, SentCategoryScore));
  }

  // ------------------------------------------------------------ temporal insights

  /** `int(total_docs * 0.4)`: the simulated number of documents from the last week. */
  function WeekCount(n: nat): (w: nat)
    ensures 5 * w <= 2 * n < 5 * w + 5
  {
    (2 * n) / 5
  }

  /** The simulated volume rule over the number of distinct document ids. */
  function VolumeTrend(n: nat): Option<InsightData> {
    if n == 0 then None
    else
      var w := WeekCount(n);
      var ratio := Ratio(w, n + 1 - w);
      if ratio > 0.5 then
        Some(InsightData(
          "trend",
          "Significant increase in feedback volume in the last week (" + NatToString(w) + " items)",
          [NatToString(w) + " feedback items in the last week", NatToString(n) + " items in the last month"],
          w,
          if ratio > 1.0 then "high" else "medium",
          Some("increasing"),
          ["All categories"]))
      else None
  }

  /**
   * The volume rule fires exactly when three simulated weekly documents
   * outnumber the rest by more than one, and it is never high severity: the
   * weekly ratio is always below 1.
   */
  lemma VolumeTrendSpec(n: nat)
    ensures var w := WeekCount(n);
      var r := VolumeTrend(n);
      (r.Some? <==> n > 0 && 3 * w > n + 1) &&
      (r.Some? ==> r.value.severity == "medium" && r.value.frequency == w &&
                   r.value.trendDirection == Some("increasing"))
  {
    if n > 0 {
      var w := WeekCount(n);
      RatioAboveFraction(w, n + 1 - w, 0.5, 1, 2);
      RatioAboveFraction(w, n + 1 - w, 1.0, 1, 1);
    }
  }

  /** `_generate_temporal_insights`: the rule depends on nothing but the number of documents. */
  function TemporalInsights(t: Tables): seq<InsightData> {
    Listed(VolumeTrend(|t.docs|))
  }

  // ------------------------------------------------------------ content insights

  const IssueIndicators: seq<string> := ["issue", "problem", "error", "bug", "fix", "broken", "not working"]

  predicate MentionsIssue(d: CleanedDocument) {
    ContainsAny(Lower(d.cleanedContent), IssueIndicators)
  }

  /** `issue_docs`: the ids, in `doc_map` order, whose text contains an issue indicator. */
  function IssueIds(docs: seq<(string, CleanedDocument)>): (r: seq<string>)
    ensures forall i :: 0 <= i < |r| ==> exists p :: 0 <= p < |docs| && docs[p].0 == r[i] && MentionsIssue(docs[p].1)
    ensures forall p :: 0 <= p < |docs| && MentionsIssue(docs[p].1) ==> docs[p].0 in r
  {
    if docs == [] then []
    else
      var last := docs[|docs| - 1];
      IssueIds(docs[..|docs| - 1]) + (if MentionsIssue(last.1) then [last.0] else [])
  }

  /** `issue_categories`: the primary categories of the issue ids that `cat_map` holds. */
  function IssueCategories(ids: seq<string>, cats: map<string, CategoryResult>): (r: seq<FeedbackCategory>)
    ensures r != [] <==> exists i :: 0 <= i < |ids| && ids[i] in cats
  {
    if ids == [] then []
    else
      var last := ids[|ids| - 1];
      IssueCategories(ids[..|ids| - 1], cats) + (if last in cats then [cats[last].primaryCategory] else [])
  }

  /** The frequent-issue rule. */
  function FrequentIssue(ids: seq<string>, cats: map<string, CategoryResult>): Option<InsightData> {
    if |ids| < MinInsightSupport then None
    else
      var categories := IssueCategories(ids, cats);
      if categories == [] then None
      else
        var ranked := RankedByCount(categories);
        assert categories[0] in Dedup(categories);
        var top := ranked[0];
        Some(InsightData(
          "frequent_issue",
          "Identified " + NatToString(|ids|) + " documents mentioning issues, primarily in the '"
            + top.Value() + "' category",
          [NatToString(Count(categories, top)) + " issues in '" + top.Value() + "' category",
           "Common issue indicators: " + Join(IssueIndicators[..3], ", ")],
          |ids|,
          if |ids| > 10 then "high" else "medium",
          Some(if |ids| > 5 then "increasing" else "stable"),
          MapSeq(MostCommon(categories, 3), CategoryValue)))
  }

  /**
   * The issue rule fires exactly when at least `MinInsightSupport` documents
   * mention an issue and one of them is categorised; it is high severity
   * exactly above ten such documents, and names at most three categories, the
   * first a most frequent one among the issue documents.
   */
  lemma FrequentIssueSpec(ids: seq<string>, cats: map<string, CategoryResult>)
    ensures var r := FrequentIssue(ids, cats);
      (r.Some? <==> |ids| >= MinInsightSupport && exists i :: 0 <= i < |ids| && ids[i] in cats) &&
      (r.Some? ==>
         var categories := IssueCategories(ids, cats);
         r.value.insightType == "frequent_issue" && r.value.frequency == |ids| &&
         (r.value.severity == "high" <==> |ids| > 10) &&
         1 <= |r.value.affectedAreas| <= 3 &&
         (forall c :: c in categories ==> Count(categories, c) <= Count(categories, RankedByCount(categories)[0])) &&
         r.value.affectedAreas[0] == RankedByCount(categories)[0].Value())
  {
    var categories := IssueCategories(ids, cats);
    if |ids| >= MinInsightSupport && categories != [] {
      RankedByCountTop(categories);
      var areas := MapSeq(MostCommon(categories, 3), CategoryValue);
      assert MostCommon(categories, 3)[0] == RankedByCount(categories)[0];
    }
  }

  function WordLength(d: CleanedDocument): nat { |Words(d.cleanedContent)| }

  predicate Short(l: nat) { l < 50 }

  /** The content-length rule over the word counts of the documents. */
  function ShortFeedback(lengths: seq<nat>): Option<InsightData> {
    if lengths == [] then None
    else
      var avg := Ratio(SumNat(lengths), |lengths|);
      if avg < 50.0 then
        Some(InsightData(
          "feedback_quality",
          "Feedback items are relatively short, which may indicate lack of detail",
          ["Average feedback length: " + Fixed(avg, 1) + " words",
           "Total feedback items analyzed: " + NatToString(|lengths|)],
          |Filter(lengths, Short)|,
          "low",
          Some("stable"),
          ["Feedback quality"]))
      else None
  }

  /** Word counts averaging below 50 include at least one below 50. */
  lemma SomeShort(lengths: seq<nat>)
    requires SumNat(lengths) < 50 * |lengths|
    ensures 1 <= |Filter(lengths, Short)| <= |lengths|
  {
    var k: nat :| k < |lengths| && lengths[k] < 50 by {
      if forall k: nat :: k < |lengths| ==> lengths[k] >= 50 {
        SumNatAtLeast(lengths, 50);
      }
    }
    FilterMembers(lengths, Short);
    assert lengths[k] in Filter(lengths, Short);
  }

  /**
   * The length rule fires exactly when the average word count is below 50;
   * then at least one document is itself short, so the frequency lies
   * between 1 and the number of documents.
   */
  lemma ShortFeedbackSpec(lengths: seq<nat>)
    ensures var r := ShortFeedback(lengths);
      (r.Some? <==> lengths != [] && SumNat(lengths) < 50 * |lengths|) &&
      (r.Some? ==> r.value.insightType == "feedback_quality" && r.value.severity == "low" &&
                   1 <= r.value.frequency <= |lengths|)
  {
    if lengths != [] {
      RatioAtLeastFraction(SumNat(lengths), |lengths|, 50.0, 50, 1);
      if SumNat(lengths) < 50 * |lengths| {
        SomeShort(lengths);
      }
    }
  }

  /** `_generate_content_insights` (its `common_terms` is computed and never used). */
  function ContentInsights(t: Tables): seq<InsightData> {
    Listed(FrequentIssue(IssueIds(t.docs), ToMap(t.cats)))
      + Listed(ShortFeedback(MapSeq(ValuesOf(t.docs), WordLength)))
  }

  /** The loop of `_generate_content_insights` that collects `issue_docs`. */
  method CollectIssueIds(docs: seq<(string, CleanedDocument)>) returns (ids: seq<string>)
    ensures ids == IssueIds(docs)
  {
    ids := [];
    for k := 0 to |docs|
      invariant ids == IssueIds(docs[..k])
    {
      assert docs[..k + 1][..k] == docs[..k];
      if MentionsIssue(docs[k].1) {
        ids := ids + [docs[k].0];
      }
    }
    assert docs[..|docs|] == docs;
  }

  /** `_generate_content_insights`, its loops delegated. */
  method ContentInsightsLoop(t: Tables) returns (insights: seq<InsightData>)
    ensures insights == ContentInsights(t)
  {
    var issueDocs := CollectIssueIds(t.docs);
    var lengths := AppendEach(ValuesOf(t.docs), WordLength);
    insights := Listed(FrequentIssue(issueDocs, ToMap(t.cats))) + Listed(ShortFeedback(lengths));
  }

  // ------------------------------------------------------------ cross-cutting insights

  /** A category with enough results whose mean score is below `-MinSentimentImpact`. */
  /** A category the cross-cutting rule reports: enough results and a mean below -0.3. */
  predicate IsNegative(g: Grouped<FeedbackCategory, real>, c: FeedbackCategory) {
    c in g.groups && |g.groups[c]| >= MinInsightSupport && Mean(g.groups[c]) < -MinSentimentImpact
  }

  /** A `(category, avg, count)` entry that is true of the groups. */
  predicate NegativeRecord(g: Grouped<FeedbackCategory, real>, e: (FeedbackCategory, real, nat)) {
    IsNegative(g, e.0) && e.1 == Mean(g.groups[e.0]) && e.2 == |g.groups[e.0]|
  }

  function NegativeEntry(g: Grouped<FeedbackCategory, real>): FeedbackCategory -> seq<(FeedbackCategory, real, nat)> {
    c => if IsNegative(g, c) then [(c, Mean(g.groups[c]), |g.groups[c]|)] else []
  }

  /** `negative_categories` as the loop over the groups appends it. */
  function NegativeEntries(g: Grouped<FeedbackCategory, real>, keys: seq<FeedbackCategory>): seq<(FeedbackCategory, real, nat)> {
    FlatMap(keys, NegativeEntry(g))
  }

  function ByScore(e: (FeedbackCategory, real, nat)): (real, real) { (e.1, 0.0) }

  /** `negative_categories` after `sort(key=avg)`: most negative first. */
  function NegativeCategories(g: Grouped<FeedbackCategory, real>): seq<(FeedbackCategory, real, nat)> {
    SortBy(NegativeEntries(g, g.keys), ByScore)
  }

  lemma NegativeEntriesStep(g: Grouped<FeedbackCategory, real>, keys: seq<FeedbackCategory>)
    requires keys != []
    ensures NegativeEntries(g, keys) ==
      NegativeEntries(g, keys[..|keys| - 1]) + NegativeEntry(g)(keys[|keys| - 1])
  {
  }

  lemma {:induction false} NegativeEntriesSound(g: Grouped<FeedbackCategory, real>, keys: seq<FeedbackCategory>)
    ensures forall i :: 0 <= i < |NegativeEntries(g, keys)| ==>
      NegativeEntries(g, keys)[i].0 in keys && NegativeRecord(g, NegativeEntries(g, keys)[i])
  {
    if keys != [] {
      var init := keys[..|keys| - 1];
      var last := keys[|keys| - 1];
      NegativeEntriesSound(g, init);
      var es0 := NegativeEntries(g, init);
      var es := NegativeEntries(g, keys);
      NegativeEntriesStep(g, keys);
      forall i | 0 <= i < |es|
        ensures es[i].0 in keys && NegativeRecord(g, es[i])
      {
        if i < |es0| {
          assert es[i] == es0[i];
        } else {
          assert IsNegative(g, last) && es[i] == (last, Mean(g.groups[last]), |g.groups[last]|);
        }
      }
    }
  }

  lemma {:induction false} NegativeEntriesDistinct(g: Grouped<FeedbackCategory, real>, keys: seq<FeedbackCategory>)
    requires Distinct(keys)
    ensures DistinctBy(NegativeEntries(g, keys), Fst3)
  {
    if keys != [] {
      var init := keys[..|keys| - 1];
      var last := keys[|keys| - 1];
      NegativeEntriesDistinct(g, init);
      NegativeEntriesSound(g, init);
      var es0 := NegativeEntries(g, init);
      var es := NegativeEntries(g, keys);
      NegativeEntriesStep(g, keys);
      assert last !in init;
      forall i, j | 0 <= i < j < |es|
        ensures Fst3(es[i]) != Fst3(es[j])
      {
        if j < |es0| {
          assert es[i] == es0[i] && es[j] == es0[j];
        } else {
          assert es[i] == es0[i] && es[j].0 == last;
        }
      }
    }
  }

  lemma {:induction false} NegativeEntriesComplete(g: Grouped<FeedbackCategory, real>, keys: seq<FeedbackCategory>,
                                                   c: FeedbackCategory)
    requires c in keys && IsNegative(g, c)
    ensures exists i :: 0 <= i < |NegativeEntries(g, keys)| && NegativeEntries(g, keys)[i].0 == c
  {
    var init := keys[..|keys| - 1];
    var last := keys[|keys| - 1];
    var es0 := NegativeEntries(g, init);
    var es := NegativeEntries(g, keys);
    NegativeEntriesStep(g, keys);
    if c == last {
      assert es[|es0|].0 == c;
    } else {
      assert c in init;
      NegativeEntriesComplete(g, init, c);
      var i :| 0 <= i < |es0| && es0[i].0 == c;
      assert es[i] == es0[i];
    }
  }

  /** Every negative category carries its true mean and count, and qualifies. */
  lemma NegativeCategoriesSound(g: Grouped<FeedbackCategory, real>)
    ensures forall i :: 0 <= i < |NegativeCategories(g)| ==> NegativeRecord(g, NegativeCategories(g)[i])
  {
    var es := NegativeEntries(g, g.keys);
    var ns := NegativeCategories(g);
    NegativeEntriesSound(g, g.keys);
    SortByMembers(es, ByScore);
    forall i | 0 <= i < |ns|
      ensures NegativeRecord(g, ns[i])
    {
      assert ns[i] in es;
    }
  }

  /** Each category appears once, and the means run from the most negative up. */
  lemma NegativeCategoriesOrder(g: Grouped<FeedbackCategory, real>)
    requires g.Valid()
    ensures var ns := NegativeCategories(g);
      forall i, j :: 0 <= i < j < |ns| ==> ns[i].0 != ns[j].0 && ns[i].1 <= ns[j].1
  {
    var es := NegativeEntries(g, g.keys);
    var ns := NegativeCategories(g);
    NegativeEntriesDistinct(g, g.keys);
    SortBySorted(es, ByScore);
    SortByDistinctBy(es, ByScore, Fst3);
    forall i, j | 0 <= i < j < |ns|
      ensures ns[i].0 != ns[j].0 && ns[i].1 <= ns[j].1
    {
      assert KeyLe(ByScore(ns[i]), ByScore(ns[j]));
      assert Fst3(ns[i]) != Fst3(ns[j]);
    }
  }

  /** Every category that qualifies is among the negative categories. */
  lemma NegativeCategoriesComplete(g: Grouped<FeedbackCategory, real>, c: FeedbackCategory)
    requires g.Valid() && IsNegative(g, c)
    ensures exists i :: 0 <= i < |NegativeCategories(g)| && NegativeCategories(g)[i].0 == c
  {
    var es := NegativeEntries(g, g.keys);
    var ns := NegativeCategories(g);
    NegativeEntriesComplete(g, g.keys, c);
    SortByMembers(es, ByScore);
    var i :| 0 <= i < |es| && es[i].0 == c;
    assert es[i] in ns;
  }

  /** One `improvement_area` insight. */
  function ImprovementArea(e: (FeedbackCategory, real, nat)): InsightData {
    InsightData(
      "improvement_area",
      "The '" + e.0.Value() + "' category shows consistently negative sentiment (avg score: " + Fixed(e.1, 2) + ")",
      ["Based on " + NatToString(e.2) + " feedback items in this category",
       "Average sentiment score: " + Fixed(e.1, 2) + " (range: -1 to 1)"],
      e.2,
      if e.1 < -0.5 then "high" else "medium",
      Some(if e.1 < -0.3 then "decreasing" else "stable"),
      [e.0.Value()])
  }

  /** The improvement areas: the three most negative categories at most. */
  function ImprovementAreas(g: Grouped<FeedbackCategory, real>): seq<InsightData> {
    MapSeq(Take(NegativeCategories(g), 3), ImprovementArea)
  }

  /**
   * At most three improvement areas, one for each of the first (most
   * negative) negative categories in order, each backed by at least
   * `MinInsightSupport` results, always with trend "decreasing", and high
   * severity exactly when the mean is below -0.5.
   */
  lemma ImprovementAreasSpec(g: Grouped<FeedbackCategory, real>)
    ensures var r := ImprovementAreas(g);
      var ns := NegativeCategories(g);
      |r| <= 3 && |r| == |Take(ns, 3)| &&
      forall i :: 0 <= i < |r| ==>
        r[i].insightType == "improvement_area" && r[i].frequency >= MinInsightSupport &&
        r[i].trendDirection == Some("decreasing") && r[i].affectedAreas == [ns[i].0.Value()] &&
        (r[i].severity == "high" <==> ns[i].1 < -0.5)
  {
    var ns := NegativeCategories(g);
    var r := ImprovementAreas(g);
    NegativeCategoriesSound(g);
    forall i | 0 <= i < |r|
      ensures r[i].insightType == "improvement_area" && r[i].frequency >= MinInsightSupport &&
              r[i].trendDirection == Some("decreasing") && r[i].affectedAreas == [ns[i].0.Value()] &&
              (r[i].severity == "high" <==> ns[i].1 < -0.5)
    {
      assert r[i] == ImprovementArea(ns[i]);
      assert NegativeRecord(g, ns[i]);
      ImprovementAreaFields(ns[i]);
    }
  }

  lemma ImprovementAreaFields(e: (FeedbackCategory, real, nat))
    requires e.1 < -MinSentimentImpact && e.2 >= MinInsightSupport
    ensures var r := ImprovementArea(e);
      r.insightType == "improvement_area" && r.frequency == e.2 &&
      r.trendDirection == Some("decreasing") && r.affectedAreas == [e.0.Value()] &&
      (r.severity == "high" <==> e.1 < -0.5)
  {
  }

  predicate AtLeastFive(w: string) { |w| >= 5 }

  /** `re.findall(r'\b\w{5,}\b', text.lower())`: the whole words of five or more word characters. */
  function LongTerms(d: CleanedDocument): seq<string> {
    Filter(WordTokens(Lower(d.cleanedContent)), AtLeastFive)
  }

  function Recurring(terms: seq<string>): string -> bool {
    w => 2 <= Count(terms, w) <= 5
  }

  /** `emerging_terms`: the terms seen two to five times, in order of first appearance. */
  function EmergingTerms(terms: seq<string>): seq<string> {
    Filter(Dedup(terms), Recurring(terms))
  }

  /** Emerging terms are distinct and are exactly the terms seen two to five times. */
  lemma EmergingTermsSpec(terms: seq<string>, w: string)
    ensures Distinct(EmergingTerms(terms))
    ensures w in EmergingTerms(terms) <==> 2 <= Count(terms, w) <= 5
  {
    var d := Dedup(terms);
    FilterDistinct(d, Recurring(terms));
    FilterMembers(d, Recurring(terms));
    if w in EmergingTerms(terms) {
      var k :| 0 <= k < |EmergingTerms(terms)| && EmergingTerms(terms)[k] == w;
      assert Recurring(terms)(w);
    }
    if 2 <= Count(terms, w) <= 5 {
      assert w in d;
      var k :| 0 <= k < |d| && d[k] == w;
    }
  }

  function EmergingTopic(terms: seq<string>): Option<InsightData> {
    var emerging := EmergingTerms(terms);
    if emerging == [] then None
    else
      Some(InsightData(
        "emerging_topic",
        "Potential emerging topics detected in feedback",
        ["Terms appearing multiple times: " + Join(Take(emerging, 5), ", "),
         "Total unique terms: " + NatToString(|Dedup(terms)|)],
        |emerging|,
        "low",
        Some("increasing"),
        ["Content analysis"]))
  }

  /** `_generate_cross_cutting_insights` (it ignores the insights found so far). */
  function CrossCuttingInsights(t: Tables): seq<InsightData> {
    ImprovementAreas(ScoreGroups(t)) + Listed(EmergingTopic(FlatMap(ValuesOf(t.docs), LongTerms)))
  }

  /** The loops of `_generate_cross_cutting_insights`. */
  method CrossCuttingInsightsLoop(t: Tables) returns (insights: seq<InsightData>)
    ensures insights == CrossCuttingInsights(t)
  {
    var g := Tally(MapSeq(JoinByKey(t.sents, ToMap(t.cats)), SentCategoryScore));
    var negatives := ExtendEach(g.keys, NegativeEntry(g));
    negatives := SortBy(negatives, ByScore);
    var areas := AppendEach(Take(negatives, 3), ImprovementArea);
    var allTerms := ExtendEach(ValuesOf(t.docs), LongTerms);
    insights := areas + Listed(EmergingTopic(allTerms));
  }

  // ------------------------------------------------------------ de-duplication

  /** `(insight_type, description.split('(')[0].strip())`. */
  function GroupKey(i: InsightData): (string, string) {
    (i.insightType, Strip(BeforeChar(i.description, '(')))
  }

  /** `{'critical': 0, 'high': 1, 'medium': 2, 'low': 3}.get(severity, 4)`. */
  function SeverityRank(s: string): nat {
    if s == "critical" then 0
    else if s == "high" then 1
    else if s == "medium" then 2
    else if s == "low" then 3
    else 4
  }

  function SeverityKey(i: InsightData): (real, real) {
    (SeverityRank(i.severity) as real, -(i.frequency as real))
  }

  /** `_filter_unique_insights`: the first insight of each key group, sorted by severity then frequency. */
  function FilterUnique(insights: seq<InsightData>): seq<InsightData> {
    SortBy(FirstPerKey(insights, GroupKey), SeverityKey)
  }

  /** `a` sorts no later than `b`: a lower severity rank, or the same rank and at least its frequency. */
  predicate SeverityBefore(a: InsightData, b: InsightData) {
    SeverityRank(a.severity) < SeverityRank(b.severity) ||
    (SeverityRank(a.severity) == SeverityRank(b.severity) && a.frequency >= b.frequency)
  }

  predicate InSeverityOrder(r: seq<InsightData>) {
    forall i, j :: 0 <= i < j < |r| ==> SeverityBefore(r[i], r[j])
  }

  /**
   * No two kept insights share a group key, and they come by severity rank,
   * higher frequency first within a rank.
   */
  lemma FilterUniqueOrder(insights: seq<InsightData>)
    ensures DistinctBy(FilterUnique(insights), GroupKey)
    ensures InSeverityOrder(FilterUnique(insights))
  {
    var f := FirstPerKey(insights, GroupKey);
    var r := FilterUnique(insights);
    FirstPerKeyDistinct(insights, GroupKey);
    SortByDistinctBy(f, SeverityKey, GroupKey);
    SortBySorted(f, SeverityKey);
    forall i, j | 0 <= i < j < |r|
      ensures SeverityBefore(r[i], r[j])
    {
      assert KeyLe(SeverityKey(r[i]), SeverityKey(r[j]));
    }
  }

  /**
   * Every kept insight is the first input of its group: it occurs in the
   * input and no earlier input has its key.  There is one per key.
   */
  lemma FilterUniqueFirst(insights: seq<InsightData>, i: nat)
    requires i < |FilterUnique(insights)|
    ensures |FilterUnique(insights)| == |Dedup(MapSeq(insights, GroupKey))|
    ensures exists p :: (0 <= p < |insights| && insights[p] == FilterUnique(insights)[i] &&
      forall q :: 0 <= q < p ==> GroupKey(insights[q]) != GroupKey(insights[p]))
  {
    var f := FirstPerKey(insights, GroupKey);
    var r := FilterUnique(insights);
    SortByMembers(f, SeverityKey);
    var j :| 0 <= j < |f| && f[j] == r[i];
    FirstPerKeyFirst(insights, GroupKey, j);
    var p :| 0 <= p < |insights| && insights[p] == f[j] &&
      forall q :: 0 <= q < p ==> GroupKey(insights[q]) != GroupKey(insights[p]);
    FirstPerKeyCovers(insights, GroupKey, p);
  }

  /** Every input's key is kept. */
  lemma FilterUniqueCovers(insights: seq<InsightData>, p: nat)
    requires p < |insights|
    ensures exists i :: 0 <= i < |FilterUnique(insights)| && GroupKey(FilterUnique(insights)[i]) == GroupKey(insights[p])
  {
    var f := FirstPerKey(insights, GroupKey);
    var r := FilterUnique(insights);
    FirstPerKeyCovers(insights, GroupKey, p);
    var j :| 0 <= j < |f| && GroupKey(f[j]) == GroupKey(insights[p]);
    SortByMembers(f, SeverityKey);
    assert f[j] in r;
  }

  /** The grouping and selection loops of `_filter_unique_insights`. */
  method FilterUniqueInsights(insights: seq<InsightData>) returns (unique: seq<InsightData>)
    ensures unique == FilterUnique(insights)
  {
    var g := Tally(KeyedBy(insights, GroupKey));
    unique := FirstOfEach(g);
    unique := SortBy(unique, SeverityKey);
  }

  // ------------------------------------------------------------ the whole stage

  /** The candidates of the five rule families, in the order `generate_insights` collects them. */
  function Candidates(t: Tables): seq<InsightData> {
    SentimentInsights(t) + CategoryInsights(t) + TemporalInsights(t) + ContentInsights(t) + CrossCuttingInsights(t)
  }

  /** `generate_insights`: no insights unless all three inputs are non-empty. */
  function Insights(documents: seq<CleanedDocument>, sentiments: seq<SentimentAnalysis>,
                    categories: seq<CategoryResult>): seq<InsightData>
  {
    if documents == [] || sentiments == [] || categories == [] then []
    else FilterUnique(Candidates(TablesOf(documents, sentiments, categories)))
  }

  /**
   * The final insights never share a group key and come in severity order,
   * higher frequency first within a severity; any empty input gives none.
   */
  lemma InsightsSpec(documents: seq<CleanedDocument>, sentiments: seq<SentimentAnalysis>,
                     categories: seq<CategoryResult>)
    ensures documents == [] || sentiments == [] || categories == [] ==> Insights(documents, sentiments, categories) == []
    ensures DistinctBy(Insights(documents, sentiments, categories), GroupKey)
    ensures InSeverityOrder(Insights(documents, sentiments, categories))
  {
    if documents != [] && sentiments != [] && categories != [] {
      FilterUniqueOrder(Candidates(TablesOf(documents, sentiments, categories)));
    }
  }

  /** `generate_insights` as the sequence of rule-family calls it makes. */
  method GenerateInsights(documents: seq<CleanedDocument>, sentiments: seq<SentimentAnalysis>,
                          categories: seq<CategoryResult>) returns (insights: seq<InsightData>)
    ensures insights == Insights(documents, sentiments, categories)
  {
    if documents == [] || sentiments == [] || categories == [] {
      return [];
    }
    var t := TablesOf(documents, sentiments, categories);
    var sentimentInsights := SentimentInsightsLoop(t);
    var categoryInsights := CategoryInsightsLoop(t);
    var contentInsights := ContentInsightsLoop(t);
    var crossCutting := CrossCuttingInsightsLoop(t);
    insights := FilterUniqueInsights(sentimentInsights + categoryInsights + TemporalInsights(t)
                                     + contentInsights + crossCutting);
  }
}
