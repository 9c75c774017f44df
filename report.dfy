/**
 * The report generation agent: the report data assembled from a batch's
 * results (`_prepare_report_data`), the summary statistics computed by
 * counting loops (`_generate_summary`), and `generate_report`, which steps
 * the agent's `status` and hands the data to the file writers.  The HTML
 * and JSON writers are file I/O; their outcomes are parameters.
 */
module Report {
  import opened Wrappers
  import opened Text
  import opened Collections
  import opened Models
  import Arith

  // ------------------------------------------------------------ summary

  /** `_generate_summary`'s dict. */
  datatype Summary = Summary(
    sentimentDistribution: Counter<SentimentType>,
    categoryDistribution: Counter<FeedbackCategory>,
    insightSeverity: Counter<string>,
    recommendationPriority: Counter<string>,
    totalDocuments: nat,
    totalInsights: nat,
    totalRecommendations: nat,
    cleanedPercentage: real,
    avgSentimentConfidence: Option<real>,
    avgPrimaryCategoryProbability: Option<real>)

  function SentimentOf(s: SentimentAnalysis): SentimentType { s.overallSentiment }

  function ConfidenceOf(s: SentimentAnalysis): real { s.confidence }

  function PrimaryOf(c: CategoryResult): FeedbackCategory { c.primaryCategory }

  /** `getattr(insight, "severity", "medium").lower()`. */
  function SeverityKey(i: InsightData): string { Lower(i.severity) }

  /** `rec.priority.lower()`. */
  function PriorityKey(r: Recommendation): string { Lower(r.priority) }

  /**
   * The probability a result contributes to the average: its confidence for
   * its own primary category, when the confidence dict is non-empty, holds
   * that category, and the value lies in [0, 1].
   */
  function PrimaryProbability(c: CategoryResult): (p: Option<real>)
    ensures p.Some? <==> (|c.categoryConfidence| > 0 && c.primaryCategory in c.categoryConfidence
                          && 0.0 <= c.categoryConfidence[c.primaryCategory] <= 1.0)
    ensures p.Some? ==> p.value == c.categoryConfidence[c.primaryCategory]
  {
    if |c.categoryConfidence| > 0 && c.primaryCategory in c.categoryConfidence then
      var prob := c.categoryConfidence[c.primaryCategory];
      if 0.0 <= prob <= 1.0 then Some(prob) else None
    else None
  }

  /** `total / count if count > 0 else None`. */
  function Average(total: real, count: nat): Option<real> {
    if count > 0 then Some(total / count as real) else None
  }

  /** The mean of `xs`, absent for an empty list. */
  function Mean(xs: seq<real>): (m: Option<real>)
    ensures m.None? <==> xs == []
  {
    Average(SumReal(xs), |xs|)
  }

  /** `(len(results) / total) * 100 if total > 0 else 100.0`, with `total == len(results)`. */
  function CleanedPercentage(total: nat): real {
    if total > 0 then (total as real / total as real) * 100.0 else 100.0
  }

  function SummaryOf(sentiments: seq<SentimentAnalysis>, categories: seq<CategoryResult>,
                     insights: seq<InsightData>, recommendations: seq<Recommendation>): Summary
  {
    Summary(
      CountsOf(MapSeq(sentiments, SentimentOf)),
      CountsOf(MapSeq(categories, PrimaryOf)),
      CountsOf(MapSeq(insights, SeverityKey)),
      CountsOf(MapSeq(recommendations, PriorityKey)),
      |sentiments|, |insights|, |recommendations|,
      CleanedPercentage(|sentiments|),
      Mean(MapSeq(sentiments, ConfidenceOf)),
      Mean(Successes(categories, PrimaryProbability)))
  }

  lemma SumRealSnoc(xs: seq<real>, x: real)
    ensures SumReal(xs + [x]) == SumReal(xs) + x
  {
    assert (xs + [x])[..|xs|] == xs;
  }

  /** The first loop of `_generate_summary`: sentiment counts and the confidence total. */
  method TallySentiments(sentiments: seq<SentimentAnalysis>)
    returns (counts: Counter<SentimentType>, total: real, valid: nat)
    ensures counts == CountsOf(MapSeq(sentiments, SentimentOf))
    ensures total == SumReal(MapSeq(sentiments, ConfidenceOf)) && valid == |sentiments|
  {
    counts := Counter([], map[]);
    total := 0.0;
    valid := 0;
    for i := 0 to |sentiments|
      invariant counts == CountsOf(MapSeq(sentiments[..i], SentimentOf))
      invariant total == SumReal(MapSeq(sentiments[..i], ConfidenceOf))
      invariant valid == i
    {
      MapSeqStep(sentiments, i, SentimentOf);
      MapSeqStep(sentiments, i, ConfidenceOf);
      CountsOfSnoc(MapSeq(sentiments[..i], SentimentOf), sentiments[i].overallSentiment);
      SumRealSnoc(MapSeq(sentiments[..i], ConfidenceOf), sentiments[i].confidence);
      counts := counts.Bump(sentiments[i].overallSentiment);
      total := total + sentiments[i].confidence;
      valid := valid + 1;
    }
    assert sentiments[..|sentiments|] == sentiments;
  }

  /** The second loop: primary-category counts and the total of the qualifying probabilities. */
  method TallyCategories(categories: seq<CategoryResult>)
    returns (counts: Counter<FeedbackCategory>, total: real, valid: nat)
    ensures counts == CountsOf(MapSeq(categories, PrimaryOf))
    ensures total == SumReal(Successes(categories, PrimaryProbability))
    ensures valid == |Successes(categories, PrimaryProbability)|
  {
    counts := Counter([], map[]);
    total := 0.0;
    valid := 0;
    for i := 0 to |categories|
      invariant counts == CountsOf(MapSeq(categories[..i], PrimaryOf))
      invariant total == SumReal(Successes(categories[..i], PrimaryProbability))
      invariant valid == |Successes(categories[..i], PrimaryProbability)|
    {
      MapSeqStep(categories, i, PrimaryOf);
      CountsOfSnoc(MapSeq(categories[..i], PrimaryOf), categories[i].primaryCategory);
      counts := counts.Bump(categories[i].primaryCategory);
      ghost var before := Successes(categories[..i], PrimaryProbability);
      SuccessesStep(categories, i, PrimaryProbability);
      var c := categories[i];
      if |c.categoryConfidence| > 0 && c.primaryCategory in c.categoryConfidence {
        var prob := c.categoryConfidence[c.primaryCategory];
        if 0.0 <= prob <= 1.0 {
          assert Successes(categories[..i + 1], PrimaryProbability) == before + [prob];
          SumRealSnoc(before, prob);
          total := total + prob;
          valid := valid + 1;
        } else {
          assert Successes(categories[..i + 1], PrimaryProbability) == before + [];
          assert before + [] == before;
        }
      } else {
        assert Successes(categories[..i + 1], PrimaryProbability) == before + [];
        assert before + [] == before;
      }
    }
    assert categories[..|categories|] == categories;
  }

  /** `_generate_summary`: the two accumulating loops, the two counting loops, and the totals. */
  method GenerateSummary(sentiments: seq<SentimentAnalysis>, categories: seq<CategoryResult>,
                         insights: seq<InsightData>, recommendations: seq<Recommendation>)
    returns (summary: Summary)
    ensures summary == SummaryOf(sentiments, categories, insights, recommendations)
  {
    var sentimentCounts, totalSentimentConfidence, validSentimentCount := TallySentiments(sentiments);
    var avgSentimentConfidence := Average(totalSentimentConfidence, validSentimentCount);
    assert avgSentimentConfidence == Mean(MapSeq(sentiments, ConfidenceOf));
    var categoryCounts, totalPrimaryProb, validPrimaryCount := TallyCategories(categories);
    var avgPrimaryProb := Average(totalPrimaryProb, validPrimaryCount);
    assert avgPrimaryProb == Mean(Successes(categories, PrimaryProbability));
    var severityCounts := CountEach(MapSeq(insights, SeverityKey));
    var priorityCounts := CountEach(MapSeq(recommendations, PriorityKey));
    var totalDocuments := |sentiments|;
    var cleanedPercentage :=
      if totalDocuments > 0 then (|sentiments| as real / totalDocuments as real) * 100.0 else 100.0;
    summary := Summary(sentimentCounts, categoryCounts, severityCounts, priorityCounts,
                       totalDocuments, |insights|, |recommendations|, cleanedPercentage,
                       avgSentimentConfidence, avgPrimaryProb);
  }

  /** Every distribution accounts for each element of its list exactly once. */
  lemma SummaryTotals(sentiments: seq<SentimentAnalysis>, categories: seq<CategoryResult>,
                      insights: seq<InsightData>, recommendations: seq<Recommendation>)
    ensures var s := SummaryOf(sentiments, categories, insights, recommendations);
      s.sentimentDistribution.Total() == |sentiments| == s.totalDocuments
      && s.categoryDistribution.Total() == |categories|
      && s.insightSeverity.Total() == |insights| == s.totalInsights
      && s.recommendationPriority.Total() == |recommendations| == s.totalRecommendations
  {
    CountsOfTotal(MapSeq(sentiments, SentimentOf));
    CountsOfTotal(MapSeq(categories, PrimaryOf));
    CountsOfTotal(MapSeq(insights, SeverityKey));
    CountsOfTotal(MapSeq(recommendations, PriorityKey));
  }

  lemma LowerIdempotent(s: string)
    ensures Lower(Lower(s)) == Lower(s)
  {
  }

  /**
   * The severity and priority distributions are keyed by lower-cased text,
   * and each key counts the insights (recommendations) whose severity
   * (priority) lower-cases to it.
   */
  lemma SummaryKeys(insights: seq<InsightData>, recommendations: seq<Recommendation>, key: string)
    ensures var s := SummaryOf([], [], insights, recommendations);
      (key in s.insightSeverity.counts ==> Lower(key) == key)
      && s.insightSeverity.Get(key) == Count(MapSeq(insights, SeverityKey), key)
      && (key in s.recommendationPriority.counts ==> Lower(key) == key)
      && s.recommendationPriority.Get(key) == Count(MapSeq(recommendations, PriorityKey), key)
  {
    var severities := MapSeq(insights, SeverityKey);
    var priorities := MapSeq(recommendations, PriorityKey);
    CountsOfSpec(severities, key);
    CountsOfSpec(priorities, key);
    if key in severities {
      var j :| 0 <= j < |severities| && severities[j] == key;
      LowerIdempotent(insights[j].severity);
    }
    if key in priorities {
      var j :| 0 <= j < |priorities| && priorities[j] == key;
      LowerIdempotent(recommendations[j].priority);
    }
  }

  /** The average of values in [0, 1] lies in [0, 1]. */
  lemma MeanUnit(xs: seq<real>)
    requires forall i :: 0 <= i < |xs| ==> 0.0 <= xs[i] <= 1.0
    ensures Mean(xs).Some? ==> 0.0 <= Mean(xs).value <= 1.0
  {
    if xs != [] {
      SumRealBounds(xs, 0.0, 1.0);
      Arith.RatioUnit(SumReal(xs), |xs| as real);
    }
  }

  /**
   * `avg_sentiment_confidence` is the mean confidence, absent exactly when
   * there are no sentiment results, and lies in [0, 1].
   */
  lemma SentimentConfidenceAverage(sentiments: seq<SentimentAnalysis>)
    ensures var avg := SummaryOf(sentiments, [], [], []).avgSentimentConfidence;
      (avg.None? <==> sentiments == [])
      && (avg.Some? ==> 0.0 <= avg.value <= 1.0)
  {
    MeanUnit(MapSeq(sentiments, ConfidenceOf));
  }

  /**
   * `avg_primary_category_probability` averages the qualifying results only,
   * is absent exactly when no result qualifies, and lies in [0, 1].
   */
  lemma PrimaryProbabilityAverage(categories: seq<CategoryResult>)
    ensures var avg := SummaryOf([], categories, [], []).avgPrimaryCategoryProbability;
      (avg.None? <==> forall c :: c in categories ==> PrimaryProbability(c).None?)
      && (avg.Some? ==> 0.0 <= avg.value <= 1.0)
  {
    var probabilities := Successes(categories, PrimaryProbability);
    forall i | 0 <= i < |probabilities|
      ensures 0.0 <= probabilities[i] <= 1.0
    {
      SuccessesMember(categories, PrimaryProbability, probabilities[i]);
    }
    MeanUnit(probabilities);
    if forall c :: c in categories ==> PrimaryProbability(c).None? {
      SuccessesNone(categories, PrimaryProbability);
    } else {
      var c :| c in categories && PrimaryProbability(c).Some?;
      var k :| 0 <= k < |categories| && categories[k] == c;
      SuccessesSome(categories, PrimaryProbability, k);
    }
  }

  /** The cleaned percentage divides the result count by itself: it is always 100. */
  lemma CleanedPercentageConstant(total: nat)
    ensures CleanedPercentage(total) == 100.0
  {
    if total > 0 {
      assert total as real / total as real == 1.0;
    }
  }

  // ------------------------------------------------------------ detail sections

  datatype SentimentDetail = SentimentDetail(
    documentId: string, sentiment: SentimentType, score: real, confidence: real, keyPhrases: seq<string>)

  datatype CategoryDetail = CategoryDetail(
    documentId: string, primaryCategory: FeedbackCategory, secondaryCategories: seq<FeedbackCategory>,
    categoryConfidence: map<FeedbackCategory, real>, keywords: seq<string>, topics: seq<string>)

  datatype InsightDetail = InsightDetail(
    id: string, insightType: string, description: string, severity: string, frequency: int,
    trendDirection: Option<string>, affectedAreas: seq<string>, supportingEvidence: seq<string>)

  datatype RecommendationDetail = RecommendationDetail(
    id: string, title: string, description: string, priority: string, category: string, effort: string,
    expectedImpact: string, timeline: string, resources: seq<string>, successMetrics: seq<string>,
    relatedInsights: seq<string>)

  function SentimentDetailOf(s: SentimentAnalysis): SentimentDetail {
    SentimentDetail(s.documentId, s.overallSentiment, s.sentimentScore, s.confidence, s.keyPhrases)
  }

  function CategoryDetailOf(c: CategoryResult): CategoryDetail {
    CategoryDetail(c.documentId, c.primaryCategory, c.secondaryCategories, c.categoryConfidence,
                   c.keywords, c.topics)
  }

  function InsightId(idx: nat): string { "insight_" + NatToString(idx) }

  function RecommendationId(idx: nat): string { "recommendation_" + NatToString(idx) }

  function InsightDetailOf(idx: nat, i: InsightData): InsightDetail {
    InsightDetail(InsightId(idx), i.insightType, i.description, i.severity, i.frequency,
                  i.trendDirection, i.affectedAreas, i.supportingEvidence)
  }

  function RecommendationDetailOf(idx: nat, r: Recommendation): RecommendationDetail {
    RecommendationDetail(RecommendationId(idx), r.title, r.description, r.priority, r.category,
                         r.implementationEffort, r.expectedImpact, r.timeline, r.resourcesRequired,
                         r.successMetrics, r.relatedInsights)
  }

  /** `[{"id": f"insight_{idx}", ...} for idx, i in enumerate(insights)]`. */
  function InsightDetails(insights: seq<InsightData>): seq<InsightDetail> {
    seq(|insights|, k requires 0 <= k < |insights| => InsightDetailOf(k, insights[k]))
  }

  function RecommendationDetails(recommendations: seq<Recommendation>): seq<RecommendationDetail> {
    seq(|recommendations|, k requires 0 <= k < |recommendations| => RecommendationDetailOf(k, recommendations[k]))
  }

  /** `_prepare_report_data`'s dict. */
  datatype ReportData = ReportData(
    reportId: string,
    generatedAt: string,
    documentCount: nat,
    insightCount: nat,
    recommendationCount: nat,
    summary: Summary,
    sentimentAnalysis: seq<SentimentDetail>,
    categorization: seq<CategoryDetail>,
    insights: seq<InsightDetail>,
    recommendations: seq<RecommendationDetail>)

  function ReportDataOf(taskId: string, generatedAt: string, documents: seq<CleanedDocument>,
                        sentiments: seq<SentimentAnalysis>, categories: seq<CategoryResult>,
                        insights: seq<InsightData>, recommendations: seq<Recommendation>): ReportData
  {
    ReportData(taskId, generatedAt, |documents|, |insights|, |recommendations|,
               SummaryOf(sentiments, categories, insights, recommendations),
               MapSeq(sentiments, SentimentDetailOf), MapSeq(categories, CategoryDetailOf),
               InsightDetails(insights), RecommendationDetails(recommendations))
  }

  lemma PrefixedInjective(p: string, a: nat, b: nat)
    requires p + NatToString(a) == p + NatToString(b)
    ensures a == b
  {
    assert NatToString(a) == (p + NatToString(a))[|p|..];
    assert NatToString(b) == (p + NatToString(b))[|p|..];
    NatToStringInjective(a, b);
  }

  /**
   * The report's counts are the list lengths, and each detail section has
   * one entry per input record, in input order.
   */
  lemma ReportDataShape(taskId: string, generatedAt: string, documents: seq<CleanedDocument>,
                        sentiments: seq<SentimentAnalysis>, categories: seq<CategoryResult>,
                        insights: seq<InsightData>, recommendations: seq<Recommendation>)
    ensures var d := ReportDataOf(taskId, generatedAt, documents, sentiments, categories, insights, recommendations);
      d.reportId == taskId
      && d.documentCount == |documents| && d.insightCount == |insights| == |d.insights|
      && d.recommendationCount == |recommendations| == |d.recommendations|
      && |d.sentimentAnalysis| == |sentiments| && |d.categorization| == |categories|
      && (forall k :: 0 <= k < |sentiments| ==>
            d.sentimentAnalysis[k].documentId == sentiments[k].documentId
            && d.sentimentAnalysis[k].sentiment == sentiments[k].overallSentiment)
      && (forall k :: 0 <= k < |categories| ==>
            d.categorization[k].documentId == categories[k].documentId
            && d.categorization[k].primaryCategory == categories[k].primaryCategory)
      && (forall k :: 0 <= k < |insights| ==>
            d.insights[k].insightType == insights[k].insightType
            && d.insights[k].severity == insights[k].severity)
      && (forall k :: 0 <= k < |recommendations| ==>
            d.recommendations[k].title == recommendations[k].title
            && d.recommendations[k].priority == recommendations[k].priority)
  {
  }

  /**
   * Insight and recommendation ids are `insight_<idx>` and
   * `recommendation_<idx>` by input position, hence pairwise distinct.
   */
  lemma ReportIds(insights: seq<InsightData>, recommendations: seq<Recommendation>)
    ensures var d := InsightDetails(insights);
      (forall k :: 0 <= k < |d| ==> d[k].id == "insight_" + NatToString(k))
      && DistinctBy(d, (x: InsightDetail) => x.id)
    ensures var d := RecommendationDetails(recommendations);
      (forall k :: 0 <= k < |d| ==> d[k].id == "recommendation_" + NatToString(k))
      && DistinctBy(d, (x: RecommendationDetail) => x.id)
  {
    var di := InsightDetails(insights);
    forall i, j | 0 <= i < j < |di|
      ensures di[i].id != di[j].id
    {
      if di[i].id == di[j].id {
        PrefixedInjective("insight_", i, j);
      }
    }
    var dr := RecommendationDetails(recommendations);
    forall i, j | 0 <= i < j < |dr|
      ensures dr[i].id != dr[j].id
    {
      if dr[i].id == dr[j].id {
        PrefixedInjective("recommendation_", i, j);
      }
    }
  }

  // ------------------------------------------------------------ the agent

  /** What a file writer returns: the written path and format, or its error message. */
  datatype FileOutcome = Written(path: string, format: string) | WriteFailed(message: string)

  /** `generate_report`'s result dict. */
  datatype ReportResult =
    | ReportSuccess(taskId: string, generatedFiles: map<string, FileOutcome>, reportData: ReportData)
    | ReportError(taskId: string, message: string)

  /** The writer's result: its path under the output directory, unless writing failed. */
  function WriterOutcome(outputDir: string, taskId: string, format: string, failure: Option<string>): FileOutcome {
    if failure.Some? then WriteFailed(failure.value)
    else Written(outputDir + "/" + taskId + "_report." + format, format)
  }

  /** `output_format in ['html', 'all']`. */
  predicate WantsHtml(outputFormat: string) { outputFormat == "html" || outputFormat == "all" }

  /** `output_format in ['json', 'all']`. */
  predicate WantsJson(outputFormat: string) { outputFormat == "json" || outputFormat == "all" }

  /** `generated_files`: an `html` entry if HTML was requested, then a `json` entry if JSON was. */
  function GeneratedFiles(outputDir: string, taskId: string, outputFormat: string,
                          htmlFailure: Option<string>, jsonFailure: Option<string>)
    : map<string, FileOutcome>
  {
    var html: map<string, FileOutcome> :=
      if WantsHtml(outputFormat) then map["html" := WriterOutcome(outputDir, taskId, "html", htmlFailure)]
      else map[];
    if WantsJson(outputFormat) then html["json" := WriterOutcome(outputDir, taskId, "json", jsonFailure)]
    else html
  }

  /**
   * Only the requested formats appear, each written to
   * `<output dir>/<task id>_report.<format>` unless its writer failed.
   */
  lemma GeneratedFilesSpec(outputDir: string, taskId: string, outputFormat: string,
                           htmlFailure: Option<string>, jsonFailure: Option<string>, f: string)
    ensures var files := GeneratedFiles(outputDir, taskId, outputFormat, htmlFailure, jsonFailure);
      ("html" in files <==> outputFormat in ["html", "all"])
      && ("json" in files <==> outputFormat in ["json", "all"])
      && (f in files ==> f == "html" || f == "json")
      && (f in files && (if f == "html" then htmlFailure else jsonFailure).None? ==>
            files[f] == Written(outputDir + "/" + taskId + "_report." + f, f))
      && (f in files && (if f == "html" then htmlFailure else jsonFailure).Some? ==> files[f].WriteFailed?)
  {
  }

  /** `task_id or default`: an absent or empty id is replaced. */
  function TaskIdOr(taskId: Option<string>, fallback: string): (id: string)
    ensures taskId.Some? && taskId.value != "" ==> id == taskId.value
    ensures taskId.None? || taskId.value == "" ==> id == fallback
  {
    if taskId.Some? && taskId.value != "" then taskId.value else fallback
  }

  class ReportAgent {
    var status: RunStatus
    const outputDir: string

    constructor (outputDir: string)
      ensures status == Idle && this.outputDir == outputDir
    {
      status := Idle;
      this.outputDir := outputDir;
    }

    /** The requested writers, in the order HTML then JSON. */
    method WriteReports(taskId: string, outputFormat: string, htmlFailure: Option<string>,
                        jsonFailure: Option<string>) returns (files: map<string, FileOutcome>)
      ensures files == GeneratedFiles(outputDir, taskId, outputFormat, htmlFailure, jsonFailure)
    {
      files := map[];
      if WantsHtml(outputFormat) {
        files := files["html" := WriterOutcome(outputDir, taskId, "html", htmlFailure)];
      }
      if WantsJson(outputFormat) {
        files := files["json" := WriterOutcome(outputDir, taskId, "json", jsonFailure)];
      }
    }

    /**
     * `generate_report`: the status goes to "processing", the report data is
     * prepared, the requested writers run, and the status ends "completed".
     * The writers report their own failures in `generated_files` instead of
     * raising, so the run always succeeds.  `fallbackId` is the
     * timestamp-based id used when no task id is given.
     */
    method GenerateReport(documents: seq<CleanedDocument>, sentiments: seq<SentimentAnalysis>,
                          categories: seq<CategoryResult>, insights: seq<InsightData>,
                          recommendations: seq<Recommendation>, taskId: Option<string>,
                          outputFormat: string, fallbackId: string, generatedAt: string,
                          htmlFailure: Option<string>, jsonFailure: Option<string>)
      returns (result: ReportResult)
      modifies this
      ensures status == Done
      ensures result.ReportSuccess?
      ensures result.taskId == TaskIdOr(taskId, fallbackId)
      ensures result.reportData
        == ReportDataOf(result.taskId, generatedAt, documents, sentiments, categories, insights, recommendations)
      ensures result.generatedFiles
        == GeneratedFiles(outputDir, result.taskId, outputFormat, htmlFailure, jsonFailure)
    {
      status := Running;
      var id := if taskId.Some? && taskId.value != "" then taskId.value else fallbackId;
      var summary := GenerateSummary(sentiments, categories, insights, recommendations);
      var data := ReportData(id, generatedAt, |documents|, |insights|, |recommendations|, summary,
                             MapSeq(sentiments, SentimentDetailOf), MapSeq(categories, CategoryDetailOf),
                             InsightDetails(insights), RecommendationDetails(recommendations));
      var files := WriteReports(id, outputFormat, htmlFailure, jsonFailure);
      assert data == ReportDataOf(id, generatedAt, documents, sentiments, categories, insights, recommendations);
      status := Done;
      result := ReportSuccess(id, files, data);
    }
  }
}
