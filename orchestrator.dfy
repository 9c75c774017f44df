/**
 * The master orchestrator.  It keeps the agents by name and records every
 * task it hands to one of them.  Its pipeline runs the seven steps in order
 * and then computes the batch's summary statistics.
 *
 * As written, step 7 calls the report agent's `generate_report` with the
 * step's dict as its only argument.  That method takes the five lists as
 * separate parameters, so the call fails before the agent runs and the
 * pipeline never completes.  `ProcessFeedbackPipeline` models this.
 * `ProcessFeedbackPipelineIntended` hands the report agent the dict's lists
 * by name and finishes the batch.
 */
module Orchestrator {
  import opened Wrappers
  import opened Collections
  import opened Models
  import opened Externals
  import opened Stages
  import DataCollection
  import DataCleaning
  import Sentiment
  import Categorization
  import Insights
  import Recommendations
  import Report
  import Arith

  // ------------------------------------------------------------ agents and tasks

  /** The names the pipeline looks its agents up by. */
  datatype StepName =
    | DataCollectionStep | DataCleaningStep | SentimentAnalysisStep | CategorizationStep
    | InsightGenerationStep | RecommendationStep | ReportGenerationStep
  {
    function Value(): string {
      match this
      case DataCollectionStep => "data_collection"
      case DataCleaningStep => "data_cleaning"
      case SentimentAnalysisStep => "sentiment_analysis"
      case CategorizationStep => "categorization"
      case InsightGenerationStep => "insight_generation"
      case RecommendationStep => "recommendation"
      case ReportGenerationStep => "report_generation"
    }
  }

  /** Kinds of task the pipeline asks for, each the name of an agent method. */
  datatype TaskType =
    | ValidateAndEnrich | CleanDocuments | AnalyzeSentiment | CategorizeFeedback
    | GenerateInsights | GenerateRecommendations | GenerateReport
  {
    function Value(): string {
      match this
      case ValidateAndEnrich => "validate_and_enrich"
      case CleanDocuments => "clean_documents"
      case AnalyzeSentiment => "analyze_sentiment"
      case CategorizeFeedback => "categorize_feedback"
      case GenerateInsights => "generate_insights"
      case GenerateRecommendations => "generate_recommendations"
      case GenerateReport => "generate_report"
    }
  }

  /** The agents the orchestrator can be given. */
  datatype AgentKind =
    | Collector | Cleaner | SentimentAnalyser | Categorizer | InsightGenerator | Recommender | Reporter

  /** The one task method each agent defines. */
  function TaskMethod(kind: AgentKind): TaskType {
    match kind
    case Collector => ValidateAndEnrich
    case Cleaner => CleanDocuments
    case SentimentAnalyser => AnalyzeSentiment
    case Categorizer => CategorizeFeedback
    case InsightGenerator => GenerateInsights
    case Recommender => GenerateRecommendations
    case Reporter => GenerateReport
  }

  /** The registry the application builds: each stage's agent under its step name. */
  const StandardAgents: map<StepName, AgentKind> := map[
    DataCollectionStep := Collector,
    DataCleaningStep := Cleaner,
    SentimentAnalysisStep := SentimentAnalyser,
    CategorizationStep := Categorizer,
    InsightGenerationStep := InsightGenerator,
    RecommendationStep := Recommender,
    ReportGenerationStep := Reporter]

  /** Which kind of task the pipeline asks of each step's agent. */
  function StepTask(name: StepName): TaskType {
    match name
    case DataCollectionStep => ValidateAndEnrich
    case DataCleaningStep => CleanDocuments
    case SentimentAnalysisStep => AnalyzeSentiment
    case CategorizationStep => CategorizeFeedback
    case InsightGenerationStep => GenerateInsights
    case RecommendationStep => GenerateRecommendations
    case ReportGenerationStep => GenerateReport
  }

  /** The registry has an agent under the step's name, and that agent has the step's task method. */
  predicate Serves(agents: map<StepName, AgentKind>, name: StepName) {
    name in agents && TaskMethod(agents[name]) == StepTask(name)
  }

  /** Every step of the pipeline finds an agent that has its task method. */
  predicate ServesAll(agents: map<StepName, AgentKind>) {
    Serves(agents, DataCollectionStep) && Serves(agents, DataCleaningStep)
    && Serves(agents, SentimentAnalysisStep) && Serves(agents, CategorizationStep)
    && Serves(agents, InsightGenerationStep) && Serves(agents, RecommendationStep)
    && Serves(agents, ReportGenerationStep)
  }

  /** The application's registry serves every step. */
  lemma StandardAgentsServeAll()
    ensures ServesAll(StandardAgents)
  {
  }

  /** A step's `input_data` dict, by the keys that step fills. */
  datatype TaskInput =
    | DocumentsInput(documents: seq<FeedbackDocument>)
    | CleanedInput(cleaned: seq<CleanedDocument>)
    | AnalysisInput(cleaned: seq<CleanedDocument>, sentiments: seq<SentimentAnalysis>,
                    categories: seq<CategoryResult>)
    | InsightsInput(insights: seq<InsightData>, sentiments: seq<SentimentAnalysis>,
                    categories: seq<CategoryResult>)
    | ReportInput(batchId: string, cleaned: seq<CleanedDocument>, sentiments: seq<SentimentAnalysis>,
                  categories: seq<CategoryResult>, insights: seq<InsightData>,
                  recommendations: seq<Recommendation>)

  /** The dict a task method reads: the pipeline builds each step's dict for its task type. */
  predicate Fits(taskType: TaskType, input: TaskInput) {
    match taskType
    case ValidateAndEnrich | CleanDocuments => input.DocumentsInput?
    case AnalyzeSentiment | CategorizeFeedback => input.CleanedInput?
    case GenerateInsights => input.AnalysisInput?
    case GenerateRecommendations => input.InsightsInput?
    case GenerateReport => input.ReportInput?
  }

  /** The documents a task may change: only `validate_and_enrich` enriches its documents in place. */
  function Touched(taskType: TaskType, input: TaskInput): set<FeedbackDocument> {
    if taskType == ValidateAndEnrich && input.DocumentsInput? then set d | d in input.documents else {}
  }

  /** What a task method returns. */
  datatype TaskOutput =
    | Documents(documents: seq<FeedbackDocument>)
    | Cleaned(cleaned: seq<CleanedDocument>)
    | Sentiments(sentiments: seq<SentimentAnalysis>)
    | Categories(categories: seq<CategoryResult>)
    | InsightList(insights: seq<InsightData>)
    | RecommendationList(recommendations: seq<Recommendation>)
    | ReportOutput(report: Report.ReportResult)

  /** The `TypeError` raised when `generate_report` receives the step's dict as its only argument. */
  const ReportCallError: string :=
    "ReportGenerationAgent.generate_report() missing 4 required positional arguments: "
    + "'sentiment_results', 'categorization_results', 'insights', and 'recommendations'"

  /**
   * What calling an agent's task method with the dict gives.  Every stage
   * catches its own errors and returns a list.  The report agent's method
   * does not take a dict, so the call fails before it runs.
   */
  function TaskOutcome(taskType: TaskType, input: TaskInput, ext: Externals): Result<TaskOutput>
    requires Fits(taskType, input)
  {
    match taskType
    case ValidateAndEnrich => Ok(Documents(ValidatedOf(input.documents)))
    case CleanDocuments => Ok(Cleaned(CleanedAll(input.documents, ext)))
    case AnalyzeSentiment => Ok(Sentiments(SentimentsOf(input.cleaned, ext)))
    case CategorizeFeedback => Ok(Categories(CategoriesOf(input.cleaned, ext)))
    case GenerateInsights =>
      Ok(InsightList(Insights.Insights(input.cleaned, input.sentiments, input.categories)))
    case GenerateRecommendations =>
      Ok(RecommendationList(Recommendations.AllRecommendations(input.insights)))
    case GenerateReport =>
      Err(ReportCallError)
  }

  /**
   * The report the pipeline means step 7 to produce: `generate_report` given
   * the dict's lists by name, the batch id as its task id, and every format.
   */
  function IntendedReport(input: TaskInput, ext: Externals, outputDir: string): Report.ReportResult
    requires input.ReportInput?
  {
    var id := Report.TaskIdOr(Some(input.batchId), ext.reportFallbackId);
    Report.ReportSuccess(
      id,
      Report.GeneratedFiles(outputDir, id, "all", ext.htmlFailure, ext.jsonFailure),
      Report.ReportDataOf(id, ext.reportTime, input.cleaned, input.sentiments, input.categories,
                          input.insights, input.recommendations))
  }

  /** The outcomes of the corrected calling convention: only the report call differs. */
  function IntendedOutcome(taskType: TaskType, input: TaskInput, ext: Externals, outputDir: string)
    : Result<TaskOutput>
    requires Fits(taskType, input)
  {
    if taskType == GenerateReport then Ok(ReportOutput(IntendedReport(input, ext, outputDir)))
    else TaskOutcome(taskType, input, ext)
  }

  /**
   * With the corrected convention the report task succeeds, its id is the
   * batch id, and its report covers the lists the dict carries.
   */
  lemma IntendedReportSucceeds(input: TaskInput, ext: Externals, outputDir: string)
    requires input.ReportInput? && input.batchId != ""
    ensures var r := IntendedOutcome(GenerateReport, input, ext, outputDir);
      r.Ok? && r.value.ReportOutput? && r.value.report.ReportSuccess?
      && r.value.report.taskId == input.batchId
      && r.value.report.reportData.documentCount == |input.cleaned|
      && r.value.report.reportData.insightCount == |input.insights|
      && r.value.report.reportData.recommendationCount == |input.recommendations|
  {
    Report.ReportDataShape(input.batchId, ext.reportTime, input.cleaned, input.sentiments, input.categories,
                           input.insights, input.recommendations);
  }

  function TaskId(agentName: StepName, hex: string): string {
    agentName.Value() + "_" + hex
  }

  /** A task as it is recorded before the agent runs. */
  function Started(agentName: StepName, taskType: TaskType, hex: string): AgentTask<TaskOutput> {
    AgentTask(TaskId(agentName, hex), agentName.Value(), taskType.Value(), Processing, None, None)
  }

  /** A task once its agent returned (completed, with the result) or raised (failed, with the message). */
  function Finished(task: AgentTask<TaskOutput>, r: Result<TaskOutput>): AgentTask<TaskOutput> {
    if r.Ok? then task.(status := Completed, result := Some(r.value))
    else task.(status := Failed, errorMessage := Some(r.message))
  }

  function NotFound(agentName: StepName): string {
    "Agent " + agentName.Value() + " not found"
  }

  function NotSupported(taskType: TaskType, agentName: StepName): string {
    "Task type " + taskType.Value() + " not supported by agent " + agentName.Value()
  }

  /** Calls an agent's task method with the step's dict, as the pipeline's steps do. */
  method Dispatch(kind: AgentKind, input: TaskInput, ext: Externals) returns (r: Result<TaskOutput>)
    requires Fits(TaskMethod(kind), input)
    modifies Touched(TaskMethod(kind), input)
    ensures r == TaskOutcome(TaskMethod(kind), input, ext)
  {
    match kind
    case Collector =>
      var validated := DataCollection.ValidateAndEnrich(input.documents, ext.now);
      r := Ok(Documents(validated));
    case Cleaner =>
      var cleaned := DataCleaning.CleanDocuments(input.documents, ext.basicClean, ext.entityCandidates);
      r := Ok(Cleaned(cleaned));
    case SentimentAnalyser =>
      var sentiments := Sentiment.AnalyzeSentiment(input.cleaned, ext.sentimentMatchers);
      r := Ok(Sentiments(sentiments));
    case Categorizer =>
      var categories := Categorization.CategorizeFeedback(input.cleaned, ext.categoryMatchers);
      r := Ok(Categories(categories));
    case InsightGenerator =>
      var insights := Insights.GenerateInsights(input.cleaned, input.sentiments, input.categories);
      r := Ok(InsightList(insights));
    case Recommender =>
      var recommendations := Recommendations.GenerateRecommendations(input.insights);
      r := Ok(RecommendationList(recommendations));
    case Reporter =>
      r := Err(ReportCallError);
  }

  // ------------------------------------------------------------ summary statistics

  /** The stage outputs of a batch, from the documents and the external passes alone. */
  function StagesOf(documents: seq<FeedbackDocument>, ext: Externals): StageOutputs {
    var cleaned := CleanedAll(ValidatedOf(documents), ext);
    var sentiments := SentimentsOf(cleaned, ext);
    var categories := CategoriesOf(cleaned, ext);
    var insights := Insights.Insights(cleaned, sentiments, categories);
    StageOutputs(cleaned, sentiments, categories, insights, Recommendations.AllRecommendations(insights))
  }

  function SentimentValue(s: SentimentAnalysis): string { s.overallSentiment.Value() }

  function CategoryValue(c: CategoryResult): string { c.primaryCategory.Value() }

  function QualityOf(d: CleanedDocument): real { d.qualityScore }

  function OrZero(m: Option<real>): real {
    if m.Some? then m.value else 0.0
  }

  /** A confidence dict's entry for `k`, if it has one. */
  function Entry(m: map<FeedbackCategory, real>, k: FeedbackCategory): Option<real> {
    if k in m then Some(m[k]) else None
  }

  /** A confidence dict's values, listed in the categories' declaration order. */
  function ValuesOf(m: map<FeedbackCategory, real>): seq<real> {
    Successes(AllCategories, (k: FeedbackCategory) => Entry(m, k))
  }

  /** Each value of the dict is listed. */
  lemma ValuesOfContains(m: map<FeedbackCategory, real>, k: FeedbackCategory)
    requires k in m
    ensures m[k] in ValuesOf(m)
  {
    AllCategoriesComplete(k);
    var i :| 0 <= i < |AllCategories| && AllCategories[i] == k;
    SuccessesContains(AllCategories, (k: FeedbackCategory) => Entry(m, k), i);
  }

  /** Only the dict's values are listed. */
  lemma ValuesOfMember(m: map<FeedbackCategory, real>, v: real)
    requires v in ValuesOf(m)
    ensures exists k :: k in m && m[k] == v
  {
    SuccessesMember(AllCategories, (k: FeedbackCategory) => Entry(m, k), v);
  }

  lemma ValuesNonEmpty(m: map<FeedbackCategory, real>)
    requires |m| > 0
    ensures ValuesOf(m) != []
  {
    var k :| k in m.Keys;
    ValuesOfContains(m, k);
  }

  /** `max(result.category_confidence.values())`, for a result whose dict is non-empty. */
  function TopConfidence(c: CategoryResult): Option<real> {
    if |c.categoryConfidence| > 0 then
      ValuesNonEmpty(c.categoryConfidence);
      Some(MaxReal(ValuesOf(c.categoryConfidence)))
    else None
  }

  /** A result contributes exactly when its dict is non-empty, and it contributes the dict's largest value. */
  lemma TopConfidenceSpec(c: CategoryResult)
    ensures TopConfidence(c).Some? <==> |c.categoryConfidence| > 0
    ensures TopConfidence(c).Some? ==>
      (exists k :: k in c.categoryConfidence && c.categoryConfidence[k] == TopConfidence(c).value)
      && forall k :: k in c.categoryConfidence ==> c.categoryConfidence[k] <= TopConfidence(c).value
  {
    var m := c.categoryConfidence;
    if |m| > 0 {
      var top := TopConfidence(c).value;
      ValuesOfMember(m, top);
      forall k | k in m
        ensures m[k] <= top
      {
        ValuesOfContains(m, k);
      }
    }
  }

  /**
   * `_calculate_average_confidence`: every sentiment confidence and every
   * non-empty dict's largest value, averaged; 0.0 when there is none.
   */
  function AverageConfidence(sentiments: seq<SentimentAnalysis>, categories: seq<CategoryResult>): real {
    var a := MapSeq(sentiments, Report.ConfidenceOf);
    var b := Successes(categories, TopConfidence);
    OrZero(Report.Average(SumReal(a) + SumReal(b), |a| + |b|))
  }

  /**
   * The average confidence is the mean of the sentiment confidences followed
   * by the dicts' maxima, and it lies in [0, 1] when the dicts' values do.
   */
  lemma AverageConfidenceSpec(sentiments: seq<SentimentAnalysis>, categories: seq<CategoryResult>)
    requires forall c, k :: c in categories && k in c.categoryConfidence ==> 0.0 <= c.categoryConfidence[k] <= 1.0
    ensures AverageConfidence(sentiments, categories)
      == OrZero(Report.Mean(MapSeq(sentiments, Report.ConfidenceOf) + Successes(categories, TopConfidence)))
    ensures 0.0 <= AverageConfidence(sentiments, categories) <= 1.0
  {
    var a := MapSeq(sentiments, Report.ConfidenceOf);
    var b := Successes(categories, TopConfidence);
    SumRealAppend(a, b);
    forall i | 0 <= i < |a + b|
      ensures 0.0 <= (a + b)[i] <= 1.0
    {
      if i >= |a| {
        var v := b[i - |a|];
        assert v in b;
        SuccessesMember(categories, TopConfidence, v);
        var c :| c in categories && TopConfidence(c) == Some(v);
        TopConfidenceSpec(c);
      }
    }
    Report.MeanUnit(a + b);
  }

  /** `_calculate_data_quality_score`: the mean quality score, 0.0 for no documents. */
  function DataQuality(cleaned: seq<CleanedDocument>): real {
    OrZero(Report.Mean(MapSeq(cleaned, QualityOf)))
  }

  /** The data quality score is 0 without documents and otherwise the mean of scores in [0, 1]. */
  lemma DataQualitySpec(cleaned: seq<CleanedDocument>)
    requires forall d :: d in cleaned ==> 0.0 <= d.qualityScore <= 1.0
    ensures cleaned == [] ==> DataQuality(cleaned) == 0.0
    ensures 0.0 <= DataQuality(cleaned) <= 1.0
  {
    var q := MapSeq(cleaned, QualityOf);
    assert forall i :: 0 <= i < |q| ==> q[i] == cleaned[i].qualityScore;
    Report.MeanUnit(q);
  }

  /** A distribution counts each value once per result, its keys in first-seen order, totalling the results. */
  lemma DistributionSpec<T>(xs: seq<T>, value: T -> string, v: string)
    ensures CountsOf(MapSeq(xs, value)).keys == Dedup(MapSeq(xs, value))
    ensures CountsOf(MapSeq(xs, value)).Get(v) == Count(MapSeq(xs, value), v)
    ensures v in CountsOf(MapSeq(xs, value)).counts <==> exists i :: 0 <= i < |xs| && value(xs[i]) == v
    ensures CountsOf(MapSeq(xs, value)).Total() == |xs|
  {
    var vs := MapSeq(xs, value);
    CountsOfSpec(vs, v);
    CountsOfTotal(vs);
    if v in vs {
      var i :| 0 <= i < |vs| && vs[i] == v;
      assert value(xs[i]) == v;
    }
  }

  /** The result of a batch whose seven steps all succeed. */
  function ProcessingResultOf(batchId: string, documents: seq<FeedbackDocument>, ext: Externals)
    : ProcessingResult
  {
    var s := StagesOf(documents, ext);
    ProcessingResult(
      batchId, |documents|, |documents|, 0,
      s.sentiments, s.categories, s.insights, s.recommendations,
      CountsOf(MapSeq(s.sentiments, SentimentValue)),
      CountsOf(MapSeq(s.categories, CategoryValue)),
      AverageConfidence(s.sentiments, s.categories),
      DataQuality(s.cleaned))
  }

  /**
   * A completed batch counts every input document as processed, including
   * those validation dropped; it has one categorization per validated
   * document and at most as many sentiment results, and its distributions
   * count those results.
   */
  lemma ProcessingResultCounts(batchId: string, documents: seq<FeedbackDocument>, ext: Externals)
    ensures var r := ProcessingResultOf(batchId, documents, ext);
      r.totalDocuments == r.processedDocuments == |documents| && r.failedDocuments == 0
      && |r.categorizationResults| == |ValidatedOf(documents)|
      && |r.sentimentResults| <= |r.categorizationResults|
      && r.sentimentDistribution.Total() == |r.sentimentResults|
      && r.categoryDistribution.Total() == |r.categorizationResults|
  {
    var s := StagesOf(documents, ext);
    CountsOfTotal(MapSeq(s.sentiments, SentimentValue));
    CountsOfTotal(MapSeq(s.categories, CategoryValue));
  }

  /** A completed batch's average confidence and data quality score both lie in [0, 1]. */
  lemma ProcessingResultScores(batchId: string, documents: seq<FeedbackDocument>, ext: Externals)
    ensures 0.0 <= ProcessingResultOf(batchId, documents, ext).averageConfidence <= 1.0
    ensures 0.0 <= ProcessingResultOf(batchId, documents, ext).dataQualityScore <= 1.0
  {
    var s := StagesOf(documents, ext);
    CategoriesOfUnit(s.cleaned, ext);
    CleanedAllUnit(ValidatedOf(documents), ext);
    ScoresUnit(s.sentiments, s.categories, s.cleaned);
  }

  lemma ScoresUnit(sentiments: seq<SentimentAnalysis>, categories: seq<CategoryResult>, cleaned: seq<CleanedDocument>)
    requires forall c, k :: c in categories && k in c.categoryConfidence ==> 0.0 <= c.categoryConfidence[k] <= 1.0
    requires forall d :: d in cleaned ==> 0.0 <= d.qualityScore <= 1.0
    ensures 0.0 <= AverageConfidence(sentiments, categories) <= 1.0
    ensures 0.0 <= DataQuality(cleaned) <= 1.0
  {
    AverageConfidenceSpec(sentiments, categories);
    DataQualitySpec(cleaned);
  }

  // ------------------------------------------------------------ the orchestrator

  class MasterOrchestrator {
    var agents: map<StepName, AgentKind>
    var activeTasks: map<string, AgentTask<TaskOutput>>
    /** The report agent instance registered under the report step. */
    const reporter: Report.ReportAgent

    constructor (reporter: Report.ReportAgent)
      ensures agents == map[] && activeTasks == map[] && this.reporter == reporter
    {
      agents := map[];
      activeTasks := map[];
      this.reporter := reporter;
    }

    /** Keeps the given agents (their own initialisation is not modelled). */
    method Initialize(agents: map<StepName, AgentKind>)
      modifies this
      ensures this.agents == agents && activeTasks == old(activeTasks)
    {
      this.agents := agents;
    }

    /** Records a task as processing under the agent's name and a fresh hex suffix. */
    method StartTask(agentName: StepName, taskType: TaskType, hex: string) returns (id: string)
      modifies this
      ensures id == TaskId(agentName, hex)
      ensures activeTasks == old(activeTasks)[id := Started(agentName, taskType, hex)]
      ensures agents == old(agents)
    {
      id := TaskId(agentName, hex);
      activeTasks := activeTasks[id := Started(agentName, taskType, hex)];
    }

    /** Marks a recorded task completed or failed. */
    method FinishTask(id: string, r: Result<TaskOutput>)
      requires id in activeTasks
      modifies this
      ensures activeTasks == old(activeTasks)[id := Finished(old(activeTasks[id]), r)]
      ensures agents == old(agents)
    {
      activeTasks := activeTasks[id := Finished(activeTasks[id], r)];
    }

    /**
     * `_execute_agent_task`: an unknown agent is an error and records
     * nothing; otherwise a task is recorded and ends completed with the
     * method's result, or failed when the agent lacks the method or the
     * method raises.  It stays recorded either way.
     */
    method ExecuteAgentTask(agentName: StepName, taskType: TaskType, input: TaskInput, ext: Externals, hex: string)
      returns (r: Result<TaskOutput>)
      requires Fits(taskType, input)
      modifies this, Touched(taskType, input)
      ensures agents == old(agents)
      ensures agentName !in agents ==> r == Err(NotFound(agentName)) && activeTasks == old(activeTasks)
      ensures agentName in agents ==>
        activeTasks == old(activeTasks)[TaskId(agentName, hex) := Finished(Started(agentName, taskType, hex), r)]
      ensures agentName in agents && TaskMethod(agents[agentName]) != taskType ==>
        r == Err(NotSupported(taskType, agentName))
      ensures agentName in agents && TaskMethod(agents[agentName]) == taskType ==>
        r == TaskOutcome(taskType, input, ext)
    {
      if agentName !in agents {
        return Err(NotFound(agentName));
      }
      ghost var before := activeTasks;
      var id := StartTask(agentName, taskType, hex);
      var kind := agents[agentName];
      if TaskMethod(kind) == taskType {
        r := Dispatch(kind, input, ext);
      } else {
        r := Err(NotSupported(taskType, agentName));
      }
      FinishTask(id, r);
      MapOverwrite(before, id, Started(agentName, taskType, hex), Finished(Started(agentName, taskType, hex), r));
    }

    /** The corrected calling convention: the report agent gets the dict's lists by name. */
    method DispatchIntended(kind: AgentKind, input: TaskInput, ext: Externals) returns (r: Result<TaskOutput>)
      requires Fits(TaskMethod(kind), input)
      modifies Touched(TaskMethod(kind), input), reporter
      ensures r == IntendedOutcome(TaskMethod(kind), input, ext, reporter.outputDir)
    {
      if kind == Reporter {
        var report := reporter.GenerateReport(input.cleaned, input.sentiments, input.categories, input.insights,
                                              input.recommendations, Some(input.batchId), "all",
                                              ext.reportFallbackId, ext.reportTime, ext.htmlFailure,
                                              ext.jsonFailure);
        r := Ok(ReportOutput(report));
      } else {
        r := Dispatch(kind, input, ext);
      }
    }

    /** `_execute_agent_task` with the corrected calling convention. */
    method ExecuteAgentTaskIntended(agentName: StepName, taskType: TaskType, input: TaskInput, ext: Externals,
                                    hex: string)
      returns (r: Result<TaskOutput>)
      requires Fits(taskType, input)
      modifies this, Touched(taskType, input), reporter
      ensures agents == old(agents)
      ensures agentName !in agents ==> r == Err(NotFound(agentName)) && activeTasks == old(activeTasks)
      ensures agentName in agents ==>
        activeTasks == old(activeTasks)[TaskId(agentName, hex) := Finished(Started(agentName, taskType, hex), r)]
      ensures agentName in agents && TaskMethod(agents[agentName]) != taskType ==>
        r == Err(NotSupported(taskType, agentName))
      ensures agentName in agents && TaskMethod(agents[agentName]) == taskType ==>
        r == IntendedOutcome(taskType, input, ext, reporter.outputDir)
    {
      if agentName !in agents {
        return Err(NotFound(agentName));
      }
      ghost var before := activeTasks;
      var id := StartTask(agentName, taskType, hex);
      var kind := agents[agentName];
      if TaskMethod(kind) == taskType {
        r := DispatchIntended(kind, input, ext);
      } else {
        r := Err(NotSupported(taskType, agentName));
      }
      FinishTask(id, r);
      MapOverwrite(before, id, Started(agentName, taskType, hex), Finished(Started(agentName, taskType, hex), r));
    }

    /** Step 1: the collector validates and enriches the documents. */
    method CollectStep(documents: seq<FeedbackDocument>, ext: Externals, hex: string)
      returns (r: Result<seq<FeedbackDocument>>)
      modifies this, set d | d in documents
      ensures agents == old(agents)
      ensures r.Ok? ==> r.value == ValidatedOf(documents)
      ensures Serves(agents, DataCollectionStep) ==> r.Ok?
    {
      var out := ExecuteAgentTask(DataCollectionStep, ValidateAndEnrich, DocumentsInput(documents), ext, hex);
      if out.Err? {
        return Err(out.message);
      }
      r := Ok(out.value.documents);
    }

    /** Step 2: the cleaner cleans the validated documents. */
    method CleanStep(validated: seq<FeedbackDocument>, ext: Externals, hex: string)
      returns (r: Result<seq<CleanedDocument>>)
      modifies this
      ensures agents == old(agents)
      ensures r.Ok? ==> r.value == CleanedAll(validated, ext)
      ensures Serves(agents, DataCleaningStep) ==> r.Ok?
    {
      var out := ExecuteAgentTask(DataCleaningStep, CleanDocuments, DocumentsInput(validated), ext, hex);
      if out.Err? {
        return Err(out.message);
      }
      r := Ok(out.value.cleaned);
    }

    /** Step 3: the sentiment analyser scores the cleaned documents. */
    method SentimentStep(cleaned: seq<CleanedDocument>, ext: Externals, hex: string)
      returns (r: Result<seq<SentimentAnalysis>>)
      modifies this
      ensures agents == old(agents)
      ensures r.Ok? ==> r.value == SentimentsOf(cleaned, ext)
      ensures Serves(agents, SentimentAnalysisStep) ==> r.Ok?
    {
      var out := ExecuteAgentTask(SentimentAnalysisStep, AnalyzeSentiment, CleanedInput(cleaned), ext, hex);
      if out.Err? {
        return Err(out.message);
      }
      r := Ok(out.value.sentiments);
    }

    /** Step 4: the categorizer classifies the cleaned documents. */
    method CategorizeStep(cleaned: seq<CleanedDocument>, ext: Externals, hex: string)
      returns (r: Result<seq<CategoryResult>>)
      modifies this
      ensures agents == old(agents)
      ensures r.Ok? ==> r.value == CategoriesOf(cleaned, ext)
      ensures Serves(agents, CategorizationStep) ==> r.Ok?
    {
      var out := ExecuteAgentTask(CategorizationStep, CategorizeFeedback, CleanedInput(cleaned), ext, hex);
      if out.Err? {
        return Err(out.message);
      }
      r := Ok(out.value.categories);
    }

    /** Step 5: the insight generator combines the documents with both analyses. */
    method InsightStep(cleaned: seq<CleanedDocument>, sentiments: seq<SentimentAnalysis>,
                       categories: seq<CategoryResult>, ext: Externals, hex: string)
      returns (r: Result<seq<InsightData>>)
      modifies this
      ensures agents == old(agents)
      ensures r.Ok? ==> r.value == Insights.Insights(cleaned, sentiments, categories)
      ensures Serves(agents, InsightGenerationStep) ==> r.Ok?
    {
      var out := ExecuteAgentTask(InsightGenerationStep, GenerateInsights,
                                  AnalysisInput(cleaned, sentiments, categories), ext, hex);
      if out.Err? {
        return Err(out.message);
      }
      r := Ok(out.value.insights);
    }

    /** Step 6: the recommender turns the insights into recommendations. */
    method RecommendStep(insights: seq<InsightData>, sentiments: seq<SentimentAnalysis>,
                         categories: seq<CategoryResult>, ext: Externals, hex: string)
      returns (r: Result<seq<Recommendation>>)
      modifies this
      ensures agents == old(agents)
      ensures r.Ok? ==> r.value == Recommendations.AllRecommendations(insights)
      ensures Serves(agents, RecommendationStep) ==> r.Ok?
    {
      var out := ExecuteAgentTask(RecommendationStep, GenerateRecommendations,
                                  InsightsInput(insights, sentiments, categories), ext, hex);
      if out.Err? {
        return Err(out.message);
      }
      r := Ok(out.value.recommendations);
    }

    /**
     * Step 7 as written: the report call never succeeds.  When the registry
     * serves the step, the error is the call's `TypeError` and the report task
     * stays recorded as failed.
     */
    method ReportStep(batchId: string, s: StageOutputs, ext: Externals, hex: string)
      returns (r: Result<Report.ReportResult>)
      modifies this
      ensures agents == old(agents)
      ensures r.Err?
      ensures Serves(agents, ReportGenerationStep) ==>
        r == Err(ReportCallError)
        && activeTasks == old(activeTasks)[TaskId(ReportGenerationStep, hex) :=
                                             Finished(Started(ReportGenerationStep, GenerateReport, hex), Err(ReportCallError))]
    {
      var out := ExecuteAgentTask(ReportGenerationStep, GenerateReport,
                                  ReportInput(batchId, s.cleaned, s.sentiments, s.categories, s.insights,
                                              s.recommendations), ext, hex);
      if out.Err? {
        return Err(out.message);
      }
      assert false;
    }

    /** Step 7 with the corrected call: the report over the batch's lists, under the batch id. */
    method ReportStepIntended(batchId: string, s: StageOutputs, ext: Externals, hex: string)
      returns (r: Result<Report.ReportResult>)
      modifies this, reporter
      ensures agents == old(agents)
      ensures r.Ok? ==> r.value == IntendedReport(ReportInput(batchId, s.cleaned, s.sentiments, s.categories,
                                                              s.insights, s.recommendations), ext, reporter.outputDir)
      ensures Serves(agents, ReportGenerationStep) ==> r.Ok?
    {
      var out := ExecuteAgentTaskIntended(ReportGenerationStep, GenerateReport,
                                          ReportInput(batchId, s.cleaned, s.sentiments, s.categories, s.insights,
                                                      s.recommendations), ext, hex);
      if out.Err? {
        return Err(out.message);
      }
      r := Ok(out.value.report);
    }

    /**
     * Steps 1 to 6 of the pipeline; the first step that fails ends them with
     * its error.  When the registry serves every step, every step succeeds.
     */
    method RunAnalysisSteps(documents: seq<FeedbackDocument>, ext: Externals, hex: nat -> string)
      returns (r: Result<StageOutputs>)
      modifies this, set d | d in documents
      ensures agents == old(agents)
      ensures r.Ok? ==> r.value == StagesOf(documents, ext)
      ensures ServesAll(agents) ==> r.Ok?
    {
      var validated := CollectStep(documents, ext, hex(1));
      if validated.Err? {
        return Err(validated.message);
      }
      var cleaned := CleanStep(validated.value, ext, hex(2));
      if cleaned.Err? {
        return Err(cleaned.message);
      }
      var sentiments := SentimentStep(cleaned.value, ext, hex(3));
      if sentiments.Err? {
        return Err(sentiments.message);
      }
      var categories := CategorizeStep(cleaned.value, ext, hex(4));
      if categories.Err? {
        return Err(categories.message);
      }
      var insights := InsightStep(cleaned.value, sentiments.value, categories.value, ext, hex(5));
      if insights.Err? {
        return Err(insights.message);
      }
      var recommendations := RecommendStep(insights.value, sentiments.value, categories.value, ext, hex(6));
      if recommendations.Err? {
        return Err(recommendations.message);
      }
      r := Ok(StageOutputs(cleaned.value, sentiments.value, categories.value, insights.value, recommendations.value));
    }

    /**
     * `process_feedback_pipeline` as written.  The report step never
     * succeeds, so the pipeline always ends with an error; when the registry
     * serves every step it is the report call's `TypeError`, and the report
     * task is left recorded as failed.
     */
    method ProcessFeedbackPipeline(documents: seq<FeedbackDocument>, ext: Externals, hex: nat -> string)
      returns (result: Result<ProcessingResult>)
      modifies this, set d | d in documents
      ensures result.Err?
      ensures agents == old(agents)
      ensures ServesAll(old(agents)) ==>
        result == Err(ReportCallError)
        && TaskId(ReportGenerationStep, hex(7)) in activeTasks
        && activeTasks[TaskId(ReportGenerationStep, hex(7))].status == Failed
    {
      var batchId := "batch_" + hex(0);
      var stages := RunAnalysisSteps(documents, ext, hex);
      if stages.Err? {
        return Err(stages.message);
      }
      var report := ReportStep(batchId, stages.value, ext, hex(7));
      // The step above has no successful outcome, so the summary statistics are never reached.
      result := Err(report.message);
    }

    /**
     * `process_feedback_pipeline` with the corrected report call.  A result
     * is the batch's stage outputs with its summary statistics, and when the
     * registry serves every step there always is one.
     */
    method ProcessFeedbackPipelineIntended(documents: seq<FeedbackDocument>, ext: Externals, hex: nat -> string)
      returns (result: Result<ProcessingResult>)
      modifies this, reporter, set d | d in documents
      ensures agents == old(agents)
      ensures result.Ok? ==> result.value == ProcessingResultOf("batch_" + hex(0), documents, ext)
      ensures ServesAll(old(agents)) ==> result.Ok?
    {
      var batchId := "batch_" + hex(0);
      var stages := RunAnalysisSteps(documents, ext, hex);
      if stages.Err? {
        return Err(stages.message);
      }
      var s := stages.value;
      var report := ReportStepIntended(batchId, s, ext, hex(7));
      if report.Err? {
        return Err(report.message);
      }
      var sentimentDistribution := CalculateSentimentDistribution(s.sentiments);
      var categoryDistribution := CalculateCategoryDistribution(s.categories);
      var averageConfidence := CalculateAverageConfidence(s.sentiments, s.categories);
      var dataQuality := CalculateDataQualityScore(s.cleaned);
      result := Ok(ProcessingResult(batchId, |documents|, |documents|, 0,
                                    s.sentiments, s.categories, s.insights, s.recommendations,
                                    sentimentDistribution, categoryDistribution, averageConfidence, dataQuality));
    }

    /** `_calculate_sentiment_distribution`: results per sentiment value. */
    method CalculateSentimentDistribution(sentiments: seq<SentimentAnalysis>) returns (d: Counter<string>)
      ensures d == CountsOf(MapSeq(sentiments, SentimentValue))
    {
      d := CountEach(MapSeq(sentiments, SentimentValue));
    }

    /** `_calculate_category_distribution`: results per primary-category value. */
    method CalculateCategoryDistribution(categories: seq<CategoryResult>) returns (d: Counter<string>)
      ensures d == CountsOf(MapSeq(categories, CategoryValue))
    {
      d := CountEach(MapSeq(categories, CategoryValue));
    }

    /** `_calculate_average_confidence`'s two loops and the final quotient. */
    method CalculateAverageConfidence(sentiments: seq<SentimentAnalysis>, categories: seq<CategoryResult>)
      returns (avg: real)
      ensures avg == AverageConfidence(sentiments, categories)
    {
      var total := 0.0;
      var count := 0;
      for i := 0 to |sentiments|
        invariant total == SumReal(MapSeq(sentiments[..i], Report.ConfidenceOf)) && count == i
      {
        MapSeqStep(sentiments, i, Report.ConfidenceOf);
        Report.SumRealSnoc(MapSeq(sentiments[..i], Report.ConfidenceOf), sentiments[i].confidence);
        total := total + sentiments[i].confidence;
        count := count + 1;
      }
      assert sentiments[..|sentiments|] == sentiments;
      ghost var first := total;
      for j := 0 to |categories|
        invariant total == first + SumReal(Successes(categories[..j], TopConfidence))
        invariant count == |sentiments| + |Successes(categories[..j], TopConfidence)|
      {
        ghost var before := Successes(categories[..j], TopConfidence);
        SuccessesStep(categories, j, TopConfidence);
        var top := TopConfidence(categories[j]);
        if top.Some? {
          assert Successes(categories[..j + 1], TopConfidence) == before + [top.value];
          Report.SumRealSnoc(before, top.value);
          total := total + top.value;
          count := count + 1;
        } else {
          assert Successes(categories[..j + 1], TopConfidence) == before + [];
          assert before + [] == before;
        }
      }
      assert categories[..|categories|] == categories;
      avg := OrZero(Report.Average(total, count));
    }

    /** `_calculate_data_quality_score`: 0.0 for no documents, else the mean quality score. */
    method CalculateDataQualityScore(cleaned: seq<CleanedDocument>) returns (score: real)
      ensures score == DataQuality(cleaned)
    {
      if |cleaned| == 0 {
        return 0.0;
      }
      var total := 0.0;
      for i := 0 to |cleaned|
        invariant total == SumReal(MapSeq(cleaned[..i], QualityOf))
      {
        MapSeqStep(cleaned, i, QualityOf);
        Report.SumRealSnoc(MapSeq(cleaned[..i], QualityOf), cleaned[i].qualityScore);
        total := total + cleaned[i].qualityScore;
      }
      assert cleaned[..|cleaned|] == cleaned;
      score := OrZero(Report.Average(total, |cleaned|));
    }
  }
}
