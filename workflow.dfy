/**
 * The workflow manager: one batch of raw feedback goes through collection,
 * cleaning, sentiment analysis, categorization, insight generation,
 * recommendation generation and the final report, in that fixed order.  The
 * run stops at the first stage that does not succeed.  The manager keeps the
 * run's status, its processing counters and each stage's results.
 */
module Workflow {
  import opened Wrappers
  import opened Collections
  import opened Models
  import opened Externals
  import opened Stages
  import opened Text
  import DataCollection
  import DataCleaning
  import Sentiment
  import Categorization
  import Insights
  import Recommendations
  import Report

  // ------------------------------------------------------------ raw input

  /** One item of the caller's input: a dict of string fields, or any other value given by its `str()`. */
  datatype RawItem = Dict(fields: map<string, string>) | Scalar(text: string)

  /** `input_data`: a single dict, a list of items, or a string, which the loop walks character by character. */
  datatype RawInput = Single(fields: map<string, string>) | Items(items: seq<RawItem>) | Chars(text: string)

  /** A single dict is wrapped in a list; each character of a string is an item of its own. */
  function ItemsOf(input: RawInput): (r: seq<RawItem>)
    ensures input.Chars? ==> |r| == |input.text| && forall i :: 0 <= i < |r| ==> r[i] == Scalar([input.text[i]])
  {
    match input
    case Single(fields) => [Dict(fields)]
    case Items(items) => items
    case Chars(text) => seq(|text|, i requires 0 <= i < |text| => Scalar([text[i]]))
  }

  /** A non-dict item becomes `{"content": str(item)}`. */
  function FieldsOf(item: RawItem): map<string, string> {
    match item
    case Dict(fields) => fields
    case Scalar(text) => map["content" := text]
  }

  /** `fields.setdefault(key, value)`: the dict after the call. */
  function SetDefault(fields: map<string, string>, key: string, value: string): map<string, string> {
    if key in fields then fields else fields[key := value]
  }

  /** The filename given to an item without one, when `k` documents have been built before it. */
  function DefaultFilename(k: nat): string {
    "document_" + NatToString(k + 1) + ".txt"
  }

  /**
   * The source `_run_data_collection` gives an item that names none.  It is
   * not a `FeedbackSource` value, so such an item never builds.
   */
  const WrittenSourceDefault := "api"

  /** The evidently intended default for an item that names no source: the document model's own default. */
  const SourceDefault := "other"

  /** The item's fields after the three `setdefault` calls, `k` documents having been built before it. */
  function WithDefaults(fields: map<string, string>, k: nat, sourceDefault: string): map<string, string> {
    SetDefault(SetDefault(SetDefault(fields, "filename", DefaultFilename(k)), "content_type", "text/plain"),
               "source", sourceDefault)
  }

  /** The constructor arguments of a document that builds. */
  datatype DocumentFields = DocumentFields(
    id: Option<string>,
    filename: string,
    content: string,
    contentType: string,
    source: FeedbackSource)

  /**
   * `FeedbackDocument(**fields)`: validation fails when the filename or the
   * content is missing or the source is not a `FeedbackSource` value; a
   * missing id is None and a missing content type is "text/plain".
   */
  function Build(fields: map<string, string>): (r: Option<DocumentFields>)
    ensures r.Some? <==> "filename" in fields && "content" in fields
                         && ("source" in fields ==> ParseFeedbackSource(fields["source"]).Some?)
    ensures r.Some? ==> r.value.filename == fields["filename"] && r.value.content == fields["content"]
    ensures r.Some? && "source" in fields ==> r.value.source.Value() == fields["source"]
  {
    if "filename" !in fields || "content" !in fields then None
    else
      var source := if "source" in fields then ParseFeedbackSource(fields["source"]) else Some(OtherSource);
      if source.None? then None
      else
        Some(DocumentFields(
          if "id" in fields then Some(fields["id"]) else None,
          fields["filename"], fields["content"],
          if "content_type" in fields then fields["content_type"] else "text/plain",
          source.value))
  }

  /**
   * The documents `build` makes from `items`, in order: an item it makes
   * nothing of is skipped, and it is told how many were made before.
   */
  function PreparedBy(items: seq<RawItem>, build: (RawItem, nat) -> Option<DocumentFields>): (r: seq<DocumentFields>)
    ensures |r| <= |items|
  {
    if items == [] then []
    else
      var before := PreparedBy(items[..|items| - 1], build);
      before + Listed(build(items[|items| - 1], |before|))
  }

  /** One item after the `setdefault` calls, built into a document if it validates. */
  function Builder(sourceDefault: string): (RawItem, nat) -> Option<DocumentFields> {
    (item: RawItem, k: nat) => Build(WithDefaults(FieldsOf(item), k, sourceDefault))
  }

  /**
   * The documents built from `items`, in order: an item that does not build
   * is skipped, and the default filename counts only the documents built
   * before the item.
   */
  function Prepared(items: seq<RawItem>, sourceDefault: string): (r: seq<DocumentFields>)
    ensures |r| <= |items|
  {
    PreparedBy(items, Builder(sourceDefault))
  }

  /** An item that builds once the defaults are filled in: it has content, and any source it names is valid. */
  predicate Buildable(fields: map<string, string>) {
    "content" in fields && ("source" in fields ==> ParseFeedbackSource(fields["source"]).Some?)
  }

  /**
   * With the source default as written, an item that names no source never
   * builds, so a batch in which no item names a source leaves the
   * collection stage nothing to process.
   */
  lemma {:induction false} UnsourcedItemsDropped(items: seq<RawItem>)
    requires forall i :: 0 <= i < |items| ==> "source" !in FieldsOf(items[i])
    ensures Prepared(items, WrittenSourceDefault) == []
  {
    if items != [] {
      UnsourcedItemsDropped(items[..|items| - 1]);
      assert "source" !in FieldsOf(items[|items| - 1]);
      assert ParseFeedbackSource(WrittenSourceDefault) == None;
    }
  }

  /**
   * With the corrected default, every item that has content and names a
   * valid source or none builds, and the i-th document gets the default
   * filename number i + 1.
   */
  lemma {:induction false} PreparedAll(items: seq<RawItem>)
    requires forall i :: 0 <= i < |items| ==> Buildable(FieldsOf(items[i]))
    ensures |Prepared(items, SourceDefault)| == |items|
    ensures forall i :: 0 <= i < |items| ==>
      Build(WithDefaults(FieldsOf(items[i]), i, SourceDefault)) == Some(Prepared(items, SourceDefault)[i])
  {
    if items != [] {
      var init := items[..|items| - 1];
      PreparedAll(init);
      var last := items[|items| - 1];
      assert Buildable(FieldsOf(last));
      assert ParseFeedbackSource(SourceDefault) == Some(OtherSource);
      assert Build(WithDefaults(FieldsOf(last), |init|, SourceDefault)).Some?;
      forall i | 0 <= i < |items| - 1
        ensures Build(WithDefaults(FieldsOf(items[i]), i, SourceDefault)) == Some(Prepared(items, SourceDefault)[i])
      {
        assert items[i] == init[i];
      }
    }
  }

  /** A document built from `f`: the constant fields agree. */
  predicate Matches(d: FeedbackDocument, f: DocumentFields) {
    d.id == f.id && d.filename == f.filename && d.content == f.content && d.contentType == Some(f.contentType)
  }

  /** `built` holds one document per entry of `prepared`, in order. */
  predicate BuiltFrom(built: seq<FeedbackDocument>, prepared: seq<DocumentFields>) {
    |built| == |prepared| && forall i :: 0 <= i < |built| ==> Matches(built[i], prepared[i])
  }

  // ------------------------------------------------------------ stages

  /** The stages in their fixed order. */
  datatype Stage =
    | Collection | Cleaning | SentimentStage | CategorizationStage | InsightStage | RecommendationStage
  {
    /** The stage's key in `agent_stats`. */
    function Value(): string {
      match this
      case Collection => "data_collection"
      case Cleaning => "data_cleaning"
      case SentimentStage => "sentiment_analysis"
      case CategorizationStage => "categorization"
      case InsightStage => "insight_generation"
      case RecommendationStage => "recommendation_generation"
    }

    /** The stage's position in the order. */
    function Index(): nat {
      match this
      case Collection => 0
      case Cleaning => 1
      case SentimentStage => 2
      case CategorizationStage => 3
      case InsightStage => 4
      case RecommendationStage => 5
    }

    /** How `process_feedback` prefixes the stage's message when the stage does not succeed. */
    function FailurePrefix(): string {
      match this
      case Collection => "Data collection failed: "
      case Cleaning => "Data cleaning failed: "
      case SentimentStage => "Sentiment analysis failed: "
      case CategorizationStage => "Categorization failed: "
      case InsightStage => "Insight generation failed: "
      case RecommendationStage => "Recommendation generation failed: "
    }
  }

  /** A stage's entry in `agent_stats`: its count and, for the later stages, its `success` flag. */
  datatype StageStat = StageStat(count: nat, success: Option<bool>)

  /** `processing_stats`, without the elapsed time. */
  datatype ProcessingStats = ProcessingStats(
    documentsProcessed: nat,
    errorsEncountered: nat,
    agentStats: map<Stage, StageStat>)
  {
    /** The counters after one more caught error. */
    function Bump(): ProcessingStats {
      this.(errorsEncountered := errorsEncountered + 1)
    }

    /** The counters after `stage` records its entry. */
    function With(stage: Stage, stat: StageStat): ProcessingStats {
      this.(agentStats := agentStats[stage := stat])
    }
  }

  /** The counters every run starts from. */
  const ZeroStats := ProcessingStats(0, 0, map[])

  /** Why a stage did not succeed: each reason is one of the messages the stage wrappers raise or return. */
  datatype Reason =
    | NoValidDocuments | NothingCollected | NothingCleaned | NoDocumentsForSentiment | InvalidSentimentResults
    | NoDocumentsForCategorization | InvalidCategorizationResults | IncompleteInsightData | NoRecommendations
  {
    /** The reason's message. */
    function Text(): string {
      match this
      case NoValidDocuments => "No valid documents to process"
      case NothingCollected => "No documents were processed during data collection"
      case NothingCleaned => "No documents were processed during data cleaning"
      case NoDocumentsForSentiment => "No documents provided for sentiment analysis"
      case InvalidSentimentResults => "Invalid sentiment analysis results returned"
      case NoDocumentsForCategorization => "No documents provided for categorization"
      case InvalidCategorizationResults => "Invalid categorization results returned"
      case IncompleteInsightData => "Incomplete data provided for insight generation"
      case NoRecommendations => "Generated 0 recommendations"
    }
  }

  /** A stage wrapper's result: its output, or the reason it did not succeed. */
  datatype Outcome<T> = Passed(value: T) | Stopped(reason: Reason)

  /** The collection stage's result, given the documents it built. */
  function CollectionOutcome(built: seq<FeedbackDocument>): Outcome<seq<FeedbackDocument>> {
    if built == [] then Stopped(NoValidDocuments)
    else
      var validated := ValidatedOf(built);
      if validated == [] then Stopped(NothingCollected) else Passed(validated)
  }

  /**
   * The analysis agents the manager holds, as what each computes: the
   * cleaned document for a document, the validated analysis of a cleaned
   * document (None when it fails validation), the categorization of a
   * cleaned document, the insights for a batch and the recommendations for
   * a list of insights.
   */
  datatype Agents = Agents(
    clean: FeedbackDocument -> CleanedDocument,
    analyze: CleanedDocument -> Option<SentimentAnalysis>,
    categorize: CleanedDocument -> CategoryResult,
    generate: (seq<CleanedDocument>, seq<SentimentAnalysis>, seq<CategoryResult>) -> seq<InsightData>,
    recommend: seq<InsightData> -> seq<Recommendation>)
  {
    /** The insights `generate_insights` computes. */
    function Generate(cleaned: seq<CleanedDocument>, sentiments: seq<SentimentAnalysis>,
                      categories: seq<CategoryResult>): seq<InsightData> {
      generate(cleaned, sentiments, categories)
    }

    /** The recommendations `generate_recommendations` computes. */
    function Recommend(insights: seq<InsightData>): seq<Recommendation> {
      recommend(insights)
    }
  }

  /**
   * The agents the manager creates: each field is the function the agent's
   * batch method applies (`clean_documents`, `analyze_sentiment`,
   * `categorize_feedback`) or computes (`generate_insights`,
   * `generate_recommendations`).
   */
  function AgentsOf(ext: Externals): Agents {
    Agents(
      (d: FeedbackDocument) => DataCleaning.CleanedOf(d, ext.basicClean, ext.entityCandidates),
      (d: CleanedDocument) => Sentiment.AnalysisOf(d, ext.sentimentMatchers),
      (d: CleanedDocument) => Categorization.CategoryOf(d, ext.categoryMatchers),
      (c: seq<CleanedDocument>, s: seq<SentimentAnalysis>, k: seq<CategoryResult>) => Insights.Insights(c, s, k),
      (i: seq<InsightData>) => Recommendations.AllRecommendations(i))
  }

  /** The cleaning stage's result. */
  function CleaningOutcome(documents: seq<FeedbackDocument>, agents: Agents): Outcome<seq<CleanedDocument>> {
    var cleaned := MapSeq(documents, agents.clean);
    if cleaned == [] then Stopped(NothingCleaned) else Passed(cleaned)
  }

  /** The sentiment stage's result. */
  function SentimentOutcome(cleaned: seq<CleanedDocument>, agents: Agents): Outcome<seq<SentimentAnalysis>> {
    if cleaned == [] then Stopped(NoDocumentsForSentiment)
    else
      var results := Successes(cleaned, agents.analyze);
      if results == [] then Stopped(InvalidSentimentResults) else Passed(results)
  }

  /** The categorization stage's result. */
  function CategorizationOutcome(cleaned: seq<CleanedDocument>, agents: Agents): Outcome<seq<CategoryResult>> {
    if cleaned == [] then Stopped(NoDocumentsForCategorization)
    else
      var results := MapSeq(cleaned, agents.categorize);
      if results == [] then Stopped(InvalidCategorizationResults) else Passed(results)
  }

  /** The insight stage's result: an empty insight list is a success. */
  function InsightOutcome(cleaned: seq<CleanedDocument>, sentiments: seq<SentimentAnalysis>,
                          categories: seq<CategoryResult>, agents: Agents): Outcome<seq<InsightData>>
  {
    if cleaned == [] || sentiments == [] || categories == [] then
      Stopped(IncompleteInsightData)
    else Passed(agents.Generate(cleaned, sentiments, categories))
  }

  /** The recommendation stage's result: an empty list is not a success. */
  function RecommendationOutcome(insights: seq<InsightData>, agents: Agents): Outcome<seq<Recommendation>> {
    var recommendations := agents.Recommend(insights);
    if recommendations == [] then Stopped(NoRecommendations) else Passed(recommendations)
  }


  // ------------------------------------------------------------ a run, as values

  /** Where a run stopped: the stage and the reason it gave. */
  datatype Halt = Halt(stage: Stage, reason: Reason)

  /**
   * A run of the stages: where it stopped (None when every stage succeeded),
   * the lists the manager holds afterwards and its counters, before the one
   * error `process_feedback` itself counts for a run that stopped.
   */
  datatype Run = Run(halt: Option<Halt>, kept: StageOutputs, stats: ProcessingStats)
  {
    /** The stage the run stopped at, None when it completed. */
    function StoppedAt(): Option<Stage> {
      if halt.Some? then Some(halt.value.stage) else None
    }
  }

  /** A stage wrapper that did not succeed: it counts one error and the run stops there. */
  function Stop(stage: Stage, reason: Reason, kept: StageOutputs, stats: ProcessingStats): Run {
    Run(Some(Halt(stage, reason)), kept, stats.Bump())
  }

  /**
   * Collection, cleaning and sentiment analysis, each run only when the one
   * before succeeded, from the documents the collection stage built and the
   * lists and counters the manager holds.
   */
  function FrontRun(built: seq<FeedbackDocument>, agents: Agents, kept: StageOutputs, stats: ProcessingStats): (r: Run)
    ensures r.kept.categories == kept.categories && r.kept.insights == kept.insights
    ensures r.kept.recommendations == kept.recommendations
  {
    match CollectionOutcome(built)
    case Stopped(reason) => Stop(Collection, reason, kept, stats)
    case Passed(documents) =>
      var collected := stats.(documentsProcessed := |documents|).With(Collection, StageStat(|documents|, None));
      match CleaningOutcome(documents, agents)
      case Stopped(reason) => Stop(Cleaning, reason, kept, collected)
      case Passed(cleaned) =>
        var cleanedStats := collected.With(Cleaning, StageStat(|cleaned|, None));
        match SentimentOutcome(cleaned, agents)
        case Stopped(reason) => Stop(SentimentStage, reason, kept.(cleaned := cleaned), cleanedStats)
        case Passed(sentiments) =>
          Run(None, kept.(cleaned := cleaned, sentiments := sentiments),
              cleanedStats.With(SentimentStage, StageStat(|sentiments|, Some(true))))
  }

  /**
   * Categorization, insight generation and recommendation generation on the
   * cleaned documents and analyses the manager holds.  The recommendations
   * and their entry are recorded even when there are none.
   */
  function BackRun(agents: Agents, kept: StageOutputs, stats: ProcessingStats): (r: Run)
    ensures r.kept.cleaned == kept.cleaned && r.kept.sentiments == kept.sentiments
  {
    match CategorizationOutcome(kept.cleaned, agents)
    case Stopped(reason) => Stop(CategorizationStage, reason, kept, stats)
    case Passed(categories) =>
      var categorized := stats.With(CategorizationStage, StageStat(|categories|, Some(true)));
      match InsightOutcome(kept.cleaned, kept.sentiments, categories, agents)
      case Stopped(reason) => Stop(InsightStage, reason, kept.(categories := categories), categorized)
      case Passed(insights) =>
        var recommendations := agents.Recommend(insights);
        var last := kept.(categories := categories, insights := insights, recommendations := recommendations);
        var recorded := categorized.With(InsightStage, StageStat(|insights|, Some(insights != [])))
                                   .With(RecommendationStage, StageStat(|recommendations|, Some(recommendations != [])));
        match RecommendationOutcome(insights, agents)
        case Stopped(reason) => Run(Some(Halt(RecommendationStage, reason)), last, recorded)
        case Passed(_) => Run(None, last, recorded)
  }

  /** The six stages of `process_feedback` in order, stopping at the first that does not succeed. */
  function RunOf(built: seq<FeedbackDocument>, agents: Agents, kept: StageOutputs, stats: ProcessingStats): Run {
    var front := FrontRun(built, agents, kept, stats);
    if front.halt.Some? then front else BackRun(agents, front.kept, front.stats)
  }

  /** The counters `process_feedback` returns: a run that stopped counts one more error. */
  function FinalStats(run: Run): ProcessingStats {
    if run.halt.Some? then run.stats.Bump() else run.stats
  }

  /**
   * The first three stages in closed form: a run with no validated document
   * stops at collection, one with no validated analysis at sentiment
   * analysis, and any other passes on the cleaned documents and the
   * analyses with an entry for each of the three stages.
   */
  lemma FrontRunCases(built: seq<FeedbackDocument>, agents: Agents, kept: StageOutputs, stats: ProcessingStats)
    ensures var run := FrontRun(built, agents, kept, stats);
      var validated := ValidatedOf(built);
      var cleaned := MapSeq(validated, agents.clean);
      var sentiments := Successes(cleaned, agents.analyze);
      var collected := stats.(documentsProcessed := |validated|).With(Collection, StageStat(|validated|, None))
                            .With(Cleaning, StageStat(|validated|, None));
      (validated == [] ==>
         run == Run(Some(Halt(Collection, if built == [] then NoValidDocuments else NothingCollected)), kept, stats.Bump()))
      && (validated != [] && sentiments == [] ==>
            run == Run(Some(Halt(SentimentStage, InvalidSentimentResults)), kept.(cleaned := cleaned), collected.Bump()))
      && (validated != [] && sentiments != [] ==>
            run == Run(None, kept.(cleaned := cleaned, sentiments := sentiments),
                       collected.With(SentimentStage, StageStat(|sentiments|, Some(true)))))
  {
    var validated := ValidatedOf(built);
    if built != [] && validated != [] {
      assert CollectionOutcome(built) == Passed(validated);
      var cleaned := MapSeq(validated, agents.clean);
      assert CleaningOutcome(validated, agents) == Passed(cleaned);
    }
  }

  /**
   * The last three stages in closed form: with documents and analyses at
   * hand categorization and insight generation always succeed, and the run
   * stops at recommendation generation exactly when there are no
   * recommendations, which are recorded all the same.
   */
  lemma BackRunCases(agents: Agents, kept: StageOutputs, stats: ProcessingStats)
    requires kept.cleaned != [] && kept.sentiments != []
    ensures var run := BackRun(agents, kept, stats);
      var categories := MapSeq(kept.cleaned, agents.categorize);
      var insights := agents.Generate(kept.cleaned, kept.sentiments, categories);
      var recommendations := agents.Recommend(insights);
      run == Run(if recommendations == [] then Some(Halt(RecommendationStage, NoRecommendations)) else None,
                 kept.(categories := categories, insights := insights, recommendations := recommendations),
                 stats.With(CategorizationStage, StageStat(|kept.cleaned|, Some(true)))
                      .With(InsightStage, StageStat(|insights|, Some(insights != [])))
                      .With(RecommendationStage, StageStat(|recommendations|, Some(recommendations != []))))
  {
    var categories := MapSeq(kept.cleaned, agents.categorize);
    assert CategorizationOutcome(kept.cleaned, agents) == Passed(categories);
  }

  /**
   * Where a run stops and why: at collection when no document passes
   * validation (with the "no valid documents" reason exactly when none was
   * built), at sentiment analysis when no analysis validates, and at
   * recommendation generation when there are no recommendations.  With
   * documents at hand cleaning, categorization and insight generation
   * always succeed, so no run stops there.
   */
  lemma RunHalt(built: seq<FeedbackDocument>, agents: Agents, kept: StageOutputs, stats: ProcessingStats)
    ensures var run := RunOf(built, agents, kept, stats);
      var validated := ValidatedOf(built);
      var cleaned := MapSeq(validated, agents.clean);
      var sentiments := Successes(cleaned, agents.analyze);
      var recommendations := agents.Recommend(agents.Generate(cleaned, sentiments, MapSeq(cleaned, agents.categorize)));
      (validated == [] ==> run.halt == Some(Halt(Collection, if built == [] then NoValidDocuments else NothingCollected)))
      && (validated != [] && sentiments == [] ==> run.halt == Some(Halt(SentimentStage, InvalidSentimentResults)))
      && (validated != [] && sentiments != [] ==>
            run.halt == if recommendations == [] then Some(Halt(RecommendationStage, NoRecommendations)) else None)
  {
    FrontRunCases(built, agents, kept, stats);
    var front := FrontRun(built, agents, kept, stats);
    if front.halt.None? {
      BackRunCases(agents, front.kept, front.stats);
    }
  }

  /** Only collection, sentiment analysis and recommendation generation can stop a run. */
  lemma RunStopsAt(built: seq<FeedbackDocument>, agents: Agents, kept: StageOutputs, stats: ProcessingStats)
    ensures var stop := RunOf(built, agents, kept, stats).StoppedAt();
      stop.Some? ==> stop.value == Collection || stop.value == SentimentStage || stop.value == RecommendationStage
  {
    RunHalt(built, agents, kept, stats);
  }

  /**
   * The lists the manager holds after a run: untouched when collection
   * stops it, the cleaned documents when sentiment analysis stops it, and
   * every stage's output otherwise.
   */
  lemma RunKept(built: seq<FeedbackDocument>, agents: Agents, kept: StageOutputs, stats: ProcessingStats)
    ensures var run := RunOf(built, agents, kept, stats);
      var validated := ValidatedOf(built);
      var cleaned := MapSeq(validated, agents.clean);
      var sentiments := Successes(cleaned, agents.analyze);
      var categories := MapSeq(cleaned, agents.categorize);
      var insights := agents.Generate(cleaned, sentiments, categories);
      (validated == [] ==> run.kept == kept)
      && (validated != [] && sentiments == [] ==> run.kept == kept.(cleaned := cleaned))
      && (validated != [] && sentiments != [] ==>
            run.kept == StageOutputs(cleaned, sentiments, categories, insights, agents.Recommend(insights)))
  {
    FrontRunCases(built, agents, kept, stats);
    var front := FrontRun(built, agents, kept, stats);
    if front.halt.None? {
      BackRunCases(agents, front.kept, front.stats);
    }
  }

  /**
   * The counters of a run from zeroed ones, stage by stage: the collection
   * and cleaning entries once a document passes validation, and the later
   * four once an analysis validates.
   */
  lemma RunStats(built: seq<FeedbackDocument>, agents: Agents, kept: StageOutputs)
    ensures var st := RunOf(built, agents, kept, ZeroStats).stats;
      var validated := ValidatedOf(built);
      var cleaned := MapSeq(validated, agents.clean);
      var sentiments := Successes(cleaned, agents.analyze);
      var insights := agents.Generate(cleaned, sentiments, MapSeq(cleaned, agents.categorize));
      var recommendations := agents.Recommend(insights);
      var collected := map[Collection := StageStat(|validated|, None), Cleaning := StageStat(|validated|, None)];
      (validated == [] ==> st == ProcessingStats(0, 1, map[]))
      && (validated != [] && sentiments == [] ==> st == ProcessingStats(|validated|, 1, collected))
      && (validated != [] && sentiments != [] ==>
            st == ProcessingStats(|validated|, 0,
                                  collected[SentimentStage := StageStat(|sentiments|, Some(true))]
                                           [CategorizationStage := StageStat(|validated|, Some(true))]
                                           [InsightStage := StageStat(|insights|, Some(insights != []))]
                                           [RecommendationStage := StageStat(|recommendations|,
                                                                             Some(recommendations != []))]))
  {
    FrontRunCases(built, agents, kept, ZeroStats);
    var front := FrontRun(built, agents, kept, ZeroStats);
    if front.halt.None? {
      BackRunCases(agents, front.kept, front.stats);
    }
  }

  /**
   * The counters `process_feedback` returns, from zeroed ones: two errors
   * when collection or sentiment analysis stops the run (the stage's and
   * the run's), one when recommendation generation does, none otherwise;
   * and the number of validated documents.
   */
  lemma RunCounters(built: seq<FeedbackDocument>, agents: Agents, kept: StageOutputs)
    ensures var st := FinalStats(RunOf(built, agents, kept, ZeroStats));
      var validated := ValidatedOf(built);
      var cleaned := MapSeq(validated, agents.clean);
      var sentiments := Successes(cleaned, agents.analyze);
      var recommendations := agents.Recommend(agents.Generate(cleaned, sentiments, MapSeq(cleaned, agents.categorize)));
      st.errorsEncountered == (if validated == [] || sentiments == [] then 2 else if recommendations == [] then 1 else 0)
      && st.documentsProcessed == |validated|
  {
    RunHalt(built, agents, kept, ZeroStats);
    RunStats(built, agents, kept);
  }

  /**
   * With the source default as written, a batch in which no item names a
   * source stops at collection with "No valid documents to process" and
   * two errors.
   */
  lemma UnsourcedBatchFails(items: seq<RawItem>, built: seq<FeedbackDocument>, agents: Agents, kept: StageOutputs)
    requires forall i :: 0 <= i < |items| ==> "source" !in FieldsOf(items[i])
    requires BuiltFrom(built, Prepared(items, WrittenSourceDefault))
    ensures var run := RunOf(built, agents, kept, ZeroStats);
      run.halt == Some(Halt(Collection, NoValidDocuments)) && FinalStats(run).errorsEncountered == 2
  {
    UnsourcedItemsDropped(items);
    assert built == [];
    RunHalt(built, agents, kept, ZeroStats);
    RunCounters(built, agents, kept);
  }






  // ------------------------------------------------------------ final report

  /** The final report's `summary`. */
  datatype Summary = Summary(
    documentsProcessed: nat,
    positive: nat,
    neutral: nat,
    negative: nat,
    categoriesIdentified: nat,
    insightsGenerated: nat,
    recommendationsProvided: nat,
    errorsEncountered: nat)


  /** The summary of a run's outputs: counts of documents, of each sentiment, of distinct primary categories and so on. */
  function SummaryOf(o: StageOutputs, errors: nat): Summary {
    var kinds := MapSeq(o.sentiments, Report.SentimentOf);
    Summary(|o.cleaned|, Count(kinds, Positive), Count(kinds, Neutral), Count(kinds, Negative),
            |Dedup(MapSeq(o.categories, Report.PrimaryOf))|, |o.insights|, |o.recommendations|, errors)
  }

  /** Each sentiment result has exactly one of the four sentiments. */
  lemma {:induction false} SentimentCountsTotal(kinds: seq<SentimentType>)
    ensures Count(kinds, Positive) + Count(kinds, Neutral) + Count(kinds, Negative) + Count(kinds, Mixed) == |kinds|
  {
    if kinds != [] {
      var init := kinds[..|kinds| - 1];
      SentimentCountsTotal(init);
      assert Count(kinds, Positive) == Count(init, Positive) + (if kinds[|kinds| - 1] == Positive then 1 else 0);
      assert Count(kinds, Neutral) == Count(init, Neutral) + (if kinds[|kinds| - 1] == Neutral then 1 else 0);
      assert Count(kinds, Negative) == Count(init, Negative) + (if kinds[|kinds| - 1] == Negative then 1 else 0);
      assert Count(kinds, Mixed) == Count(init, Mixed) + (if kinds[|kinds| - 1] == Mixed then 1 else 0);
    }
  }

  /**
   * The summary's three sentiment counts account for every sentiment result
   * except the mixed ones, so they add up to the number of results exactly
   * when none is mixed; and the number of distinct primary categories is
   * between one and the number of categorizations when there is one.
   */
  lemma SummaryCounts(o: StageOutputs, errors: nat)
    ensures var s := SummaryOf(o, errors);
      s.positive + s.neutral + s.negative <= |o.sentiments|
      && (s.positive + s.neutral + s.negative == |o.sentiments| <==>
          forall i :: 0 <= i < |o.sentiments| ==> o.sentiments[i].overallSentiment != Mixed)
      && s.categoriesIdentified <= |o.categories|
      && (o.categories != [] ==> 1 <= s.categoriesIdentified)
  {
    var kinds := MapSeq(o.sentiments, Report.SentimentOf);
    SentimentCountsTotal(kinds);
    if forall i :: 0 <= i < |o.sentiments| ==> o.sentiments[i].overallSentiment != Mixed {
      assert Mixed !in kinds;
    } else {
      var i :| 0 <= i < |o.sentiments| && o.sentiments[i].overallSentiment == Mixed;
      assert kinds[i] == Mixed;
    }
    var primaries := MapSeq(o.categories, Report.PrimaryOf);
    if o.categories != [] {
      assert primaries[0] in Dedup(primaries);
    }
  }

  /**
   * `self.report`, without its timestamps: the report id, the files written,
   * and the outputs and error count its summary is computed from.
   */
  datatype FinalReport = FinalReport(reportId: string, files: map<string, Report.FileOutcome>,
                                     outputs: StageOutputs, errors: nat)
  {
    /** The report's `summary`. */
    function Summary(): Summary {
      SummaryOf(outputs, errors)
    }
  }

  /** `process_feedback`'s result dict. */
  datatype WorkflowResult =
    | Success(taskId: string, report: FinalReport, stats: ProcessingStats)
    | Failure(taskId: string, stage: Stage, reason: Reason, stats: ProcessingStats)
  {
    /** A failure's `error` message: the stage's prefix, then the reason's message. */
    function Message(): string
      requires Failure?
    {
      stage.FailurePrefix() + reason.Text()
    }
  }

  /** The one-entry sequence of a present value, or the empty one. */
  function Listed<T>(o: Option<T>): (r: seq<T>)
    ensures |r| <= 1
  {
    if o.Some? then [o.value] else []
  }

  /** Building one more item appends what `build` makes of it. */
  lemma PreparedStep(items: seq<RawItem>, i: nat, build: (RawItem, nat) -> Option<DocumentFields>)
    requires i < |items|
    ensures PreparedBy(items[..i + 1], build)
            == PreparedBy(items[..i], build) + Listed(build(items[i], |PreparedBy(items[..i], build)|))
  {
    assert items[..i + 1][..i] == items[..i];
  }

  /** The loop that makes a document of each item `build` accepts, skipping the others. */
  method BuildEach(items: seq<RawItem>, build: (RawItem, nat) -> Option<DocumentFields>)
    returns (docs: seq<FeedbackDocument>)
    ensures BuiltFrom(docs, PreparedBy(items, build))
    ensures forall j :: 0 <= j < |docs| ==> fresh(docs[j])
  {
    docs := [];
    ghost var prepared: seq<DocumentFields> := [];
    for i := 0 to |items|
      invariant prepared == PreparedBy(items[..i], build)
      invariant BuiltFrom(docs, prepared)
      invariant forall j :: 0 <= j < |docs| ==> fresh(docs[j])
    {
      PreparedStep(items, i, build);
      var made := build(items[i], |docs|);
      if made.Some? {
        var doc := NewDocument(made.value);
        docs := docs + [doc];
        prepared := prepared + [made.value];
      }
    }
    assert items[..|items|] == items;
  }

  method NewDocument(f: DocumentFields) returns (doc: FeedbackDocument)
    ensures fresh(doc) && Matches(doc, f)
    ensures doc.source == Some(f.source) && doc.metadata == map[]
  {
    doc := new FeedbackDocument(f.id, f.filename, f.content, Some(f.contentType), Some(f.source), map[]);
  }

  /**
   * The loop of `_run_data_collection` that builds a document from each
   * item, skipping the items that do not build.
   */
  method BuildDocuments(items: seq<RawItem>, sourceDefault: string) returns (docs: seq<FeedbackDocument>)
    ensures BuiltFrom(docs, Prepared(items, sourceDefault))
    ensures forall j :: 0 <= j < |docs| ==> fresh(docs[j])
  {
    docs := BuildEach(items, Builder(sourceDefault));
  }

  // ------------------------------------------------------------ the manager

  class WorkflowManager {
    var status: RunStatus
    var currentTaskId: Option<string>
    var stats: ProcessingStats
    var cleanedDocuments: seq<CleanedDocument>
    var sentimentResults: seq<SentimentAnalysis>
    var categorizationResults: seq<CategoryResult>
    var insights: seq<InsightData>
    var recommendations: seq<Recommendation>
    var report: Option<FinalReport>
    const agents: Agents
    const reporter: Report.ReportAgent
    /** The source given to an item that names none: `WrittenSourceDefault` as written. */
    const sourceDefault: string

    /** An idle manager with zeroed counters and no stored results. */
    constructor (agents: Agents, reporter: Report.ReportAgent, sourceDefault: string)
      ensures status == Idle && currentTaskId == None && stats == ZeroStats
      ensures cleanedDocuments == [] && sentimentResults == [] && categorizationResults == []
      ensures insights == [] && recommendations == [] && report == None
      ensures this.agents == agents && this.reporter == reporter && this.sourceDefault == sourceDefault
    {
      status := Idle;
      currentTaskId := None;
      stats := ZeroStats;
      cleanedDocuments := [];
      sentimentResults := [];
      categorizationResults := [];
      insights := [];
      recommendations := [];
      report := None;
      this.agents := agents;
      this.reporter := reporter;
      this.sourceDefault := sourceDefault;
    }

    /**
     * `_run_data_collection`: builds the documents and validates and
     * enriches them.  Building none, or keeping none, counts one error.
     */
    method RunDataCollection(input: RawInput, now: string)
      returns (r: Outcome<seq<FeedbackDocument>>, ghost built: seq<FeedbackDocument>)
      modifies this`stats
      ensures BuiltFrom(built, Prepared(ItemsOf(input), sourceDefault))
      ensures forall j :: 0 <= j < |built| ==> fresh(built[j])
      ensures r == CollectionOutcome(built)
      ensures r.Passed? ==> forall d :: d in r.value ==> d.source == Some(DataCollection.DetectSourceType(d.filename, d.content))
      ensures stats == if r.Passed? then old(stats).(documentsProcessed := |r.value|)
                                        .With(Collection, StageStat(|r.value|, None))
                       else old(stats).Bump()
    {
      var docs := BuildDocuments(ItemsOf(input), sourceDefault);
      built := docs;
      if docs == [] {
        stats := stats.Bump();
        return Stopped(NoValidDocuments), built;
      }
      var validated := DataCollection.ValidateAndEnrich(docs, now);
      FilterMembers(docs, DataCollection.ValidateDocument);
      if validated == [] {
        stats := stats.Bump();
        return Stopped(NothingCollected), built;
      }
      stats := stats.(documentsProcessed := |validated|).With(Collection, StageStat(|validated|, None));
      r := Passed(validated);
    }

    /**
     * `_run_data_cleaning`: cleans every document and keeps the result;
     * cleaning nothing counts one error, which happens exactly when there is
     * no document.
     */
    method RunDataCleaning(documents: seq<FeedbackDocument>) returns (r: Outcome<seq<CleanedDocument>>)
      modifies this`cleanedDocuments, this`stats
      ensures r == CleaningOutcome(documents, agents)
      ensures r.Passed? <==> documents != []
      ensures cleanedDocuments == if r.Passed? then r.value else old(cleanedDocuments)
      ensures stats == if r.Passed? then old(stats).With(Cleaning, StageStat(|r.value|, None)) else old(stats).Bump()
    {
      var cleaned := MapSeq(documents, agents.clean);
      if cleaned == [] {
        stats := stats.Bump();
        return Stopped(NothingCleaned);
      }
      cleanedDocuments := cleaned;
      stats := stats.With(Cleaning, StageStat(|cleaned|, None));
      r := Passed(cleaned);
    }

    /** `_run_sentiment_analysis`: no documents, or no analysis that validates, counts one error. */
    method RunSentimentAnalysis(cleaned: seq<CleanedDocument>) returns (r: Outcome<seq<SentimentAnalysis>>)
      modifies this`sentimentResults, this`stats
      ensures r == SentimentOutcome(cleaned, agents)
      ensures sentimentResults == if r.Passed? then r.value else old(sentimentResults)
      ensures stats == if r.Passed? then old(stats).With(SentimentStage, StageStat(|r.value|, Some(true)))
                       else old(stats).Bump()
    {
      if cleaned == [] {
        stats := stats.Bump();
        return Stopped(NoDocumentsForSentiment);
      }
      var results := Successes(cleaned, agents.analyze);
      if results == [] {
        stats := stats.Bump();
        return Stopped(InvalidSentimentResults);
      }
      sentimentResults := results;
      stats := stats.With(SentimentStage, StageStat(|results|, Some(results != [])));
      r := Passed(results);
    }

    /**
     * `_run_categorization`: no documents counts one error.  The agent
     * returns one result per document, so its check for an empty result
     * never fires once there are documents.
     */
    method RunCategorization(cleaned: seq<CleanedDocument>) returns (r: Outcome<seq<CategoryResult>>)
      modifies this`categorizationResults, this`stats
      ensures r == CategorizationOutcome(cleaned, agents)
      ensures r.Passed? <==> cleaned != []
      ensures r.Passed? ==> |r.value| == |cleaned|
      ensures categorizationResults == if r.Passed? then r.value else old(categorizationResults)
      ensures stats == if r.Passed? then old(stats).With(CategorizationStage, StageStat(|r.value|, Some(true)))
                       else old(stats).Bump()
    {
      if cleaned == [] {
        stats := stats.Bump();
        return Stopped(NoDocumentsForCategorization);
      }
      var results := MapSeq(cleaned, agents.categorize);
      categorizationResults := results;
      stats := stats.With(CategorizationStage, StageStat(|results|, Some(results != [])));
      r := Passed(results);
    }

    /** `_run_insight_generation`: an empty input counts one error; an empty insight list is a success. */
    method RunInsightGeneration(cleaned: seq<CleanedDocument>, sentiments: seq<SentimentAnalysis>,
                                categories: seq<CategoryResult>) returns (r: Outcome<seq<InsightData>>)
      modifies this`insights, this`stats
      ensures r == InsightOutcome(cleaned, sentiments, categories, agents)
      ensures r.Passed? <==> cleaned != [] && sentiments != [] && categories != []
      ensures insights == if r.Passed? then r.value else old(insights)
      ensures stats == if r.Passed? then old(stats).With(InsightStage, StageStat(|r.value|, Some(r.value != [])))
                       else old(stats).Bump()
    {
      if cleaned == [] || sentiments == [] || categories == [] {
        stats := stats.Bump();
        return Stopped(IncompleteInsightData);
      }
      var generated := agents.Generate(cleaned, sentiments, categories);
      insights := generated;
      stats := stats.With(InsightStage, StageStat(|generated|, Some(generated != [])));
      r := Passed(generated);
    }

    /**
     * `_run_recommendation_generation`: the recommendations and their entry
     * are recorded even when there are none; an empty list is not a success
     * but counts no error of its own.
     */
    method RunRecommendationGeneration(insightList: seq<InsightData>) returns (r: Outcome<seq<Recommendation>>)
      modifies this`recommendations, this`stats
      ensures r == RecommendationOutcome(insightList, agents)
      ensures recommendations == agents.Recommend(insightList)
      ensures stats == old(stats).With(RecommendationStage, StageStat(|recommendations|, Some(recommendations != [])))
    {
      var generated := agents.Recommend(insightList);
      recommendations := generated;
      stats := stats.With(RecommendationStage, StageStat(|generated|, Some(generated != [])));
      if generated == [] {
        return Stopped(NoRecommendations);
      }
      r := Passed(generated);
    }

    /**
     * `_generate_final_report`: the report agent writes both formats under
     * the run's task id, and the manager keeps the report id, the files and
     * the summary.  The agent always succeeds, so its error branch is not
     * modelled.
     */
    method GenerateFinalReport(id: string, o: StageOutputs, ext: Externals) returns (fr: FinalReport)
      modifies this`report, reporter
      ensures fr == FinalReport(id, Report.GeneratedFiles(reporter.outputDir, Report.TaskIdOr(Some(id), ext.reportFallbackId),
                                                            "all", ext.htmlFailure, ext.jsonFailure),
                                  o, stats.errorsEncountered)
      ensures report == Some(fr)
    {
      var result := reporter.GenerateReport(o.cleaned, o.sentiments, o.categories, o.insights, o.recommendations,
                                            Some(id), "all", ext.reportFallbackId, ext.reportTime,
                                            ext.htmlFailure, ext.jsonFailure);
      fr := FinalReport(id, result.generatedFiles, o, stats.errorsEncountered);
      report := Some(fr);
    }

    /** The reset at the start of `process_feedback`: a task id, status "processing" and zeroed counters. */
    method Start(taskId: Option<string>, stamp: string) returns (id: string)
      modifies this`currentTaskId, this`status, this`stats
      ensures id == Report.TaskIdOr(taskId, "task_" + stamp)
      ensures currentTaskId == Some(id) && status == Running && stats == ZeroStats
    {
      id := Report.TaskIdOr(taskId, "task_" + stamp);
      currentTaskId := Some(id);
      status := Running;
      stats := ZeroStats;
    }

    /** The error path of `process_feedback`: status "error", one more error, and the failure result. */
    method Fail(id: string, stage: Stage, reason: Reason) returns (result: WorkflowResult)
      modifies this`status, this`stats
      ensures status == Error && stats == old(stats).Bump()
      ensures result == Failure(id, stage, reason, stats)
    {
      status := Error;
      stats := stats.Bump();
      result := Failure(id, stage, reason, stats);
    }

    /**
     * The first three steps of `process_feedback`: collection, cleaning and
     * sentiment analysis, each run only when the one before succeeded.
     */
    method RunFrontStages(input: RawInput, now: string) returns (halt: Option<Halt>, ghost built: seq<FeedbackDocument>)
      modifies this`cleanedDocuments, this`sentimentResults, this`stats
      ensures BuiltFrom(built, Prepared(ItemsOf(input), sourceDefault))
      ensures var run := FrontRun(built, agents, old(StageOutputs(cleanedDocuments, sentimentResults,
                                                                  categorizationResults, insights, recommendations)),
                                  old(stats));
        halt == run.halt && stats == run.stats
        && cleanedDocuments == run.kept.cleaned && sentimentResults == run.kept.sentiments
    {
      var collected;
      collected, built := RunDataCollection(input, now);
      if collected.Stopped? {
        return Some(Halt(Collection, collected.reason)), built;
      }
      var cleaned := RunDataCleaning(collected.value);
      if cleaned.Stopped? {
        // Cleaning the documents collection kept never comes back empty.
        assert false;
      }
      var sentiments := RunSentimentAnalysis(cleaned.value);
      if sentiments.Stopped? {
        return Some(Halt(SentimentStage, sentiments.reason)), built;
      }
      halt := None;
    }

    /**
     * The next three steps of `process_feedback`: categorization, insight
     * generation and recommendation generation on the documents and
     * analyses the manager holds, each run only when the one before
     * succeeded.
     */
    method RunBackStages() returns (halt: Option<Halt>)
      modifies this`categorizationResults, this`insights, this`recommendations, this`stats
      ensures var run := BackRun(agents, old(StageOutputs(cleanedDocuments, sentimentResults,
                                                          categorizationResults, insights, recommendations)),
                                 old(stats));
        halt == run.halt && stats == run.stats && categorizationResults == run.kept.categories
        && insights == run.kept.insights && recommendations == run.kept.recommendations
    {
      var categories := RunCategorization(cleanedDocuments);
      if categories.Stopped? {
        return Some(Halt(CategorizationStage, categories.reason));
      }
      var generated := RunInsightGeneration(cleanedDocuments, sentimentResults, categories.value);
      if generated.Stopped? {
        return Some(Halt(InsightStage, generated.reason));
      }
      var recommended := RunRecommendationGeneration(generated.value);
      if recommended.Stopped? {
        return Some(Halt(RecommendationStage, recommended.reason));
      }
      halt := None;
    }

    /**
     * The end of `process_feedback`: for a run that stopped, status "error",
     * one more error and the error result; otherwise the final report,
     * status "completed" and the success result.
     */
    method Complete(id: string, halt: Option<Halt>, ext: Externals) returns (result: WorkflowResult)
      requires id != ""
      modifies this`status, this`stats, this`report, reporter
      ensures currentTaskId == old(currentTaskId)
      ensures result.taskId == id && result.stats == stats
      ensures stats == if halt.Some? then old(stats).Bump() else old(stats)
      ensures halt.Some? ==>
        status == Error && report == old(report) && result == Failure(id, halt.value.stage, halt.value.reason, stats)
      ensures halt.None? ==>
        status == Done && result.Success? && report == Some(result.report)
        && result.report == FinalReport(id, Report.GeneratedFiles(reporter.outputDir, id, "all",
                                                                  ext.htmlFailure, ext.jsonFailure),
                                         StageOutputs(cleanedDocuments, sentimentResults, categorizationResults,
                                                      insights, recommendations),
                                         stats.errorsEncountered)
    {
      if halt.Some? {
        result := Fail(id, halt.value.stage, halt.value.reason);
        return;
      }
      var fr := GenerateFinalReport(id, StageOutputs(cleanedDocuments, sentimentResults, categorizationResults,
                                                     insights, recommendations), ext);
      status := Done;
      result := Success(id, fr, stats);
    }

    /**
     * The six stages of `process_feedback` in order, up to the first that
     * does not succeed.  `built` is the documents the collection stage built.
     */
    method RunStages(input: RawInput, now: string) returns (halt: Option<Halt>, ghost built: seq<FeedbackDocument>)
      modifies this`cleanedDocuments, this`sentimentResults, this`categorizationResults, this`insights
      modifies this`recommendations, this`stats
      ensures BuiltFrom(built, Prepared(ItemsOf(input), sourceDefault))
      ensures var run := RunOf(built, agents, old(StageOutputs(cleanedDocuments, sentimentResults,
                                                               categorizationResults, insights, recommendations)),
                               old(stats));
        halt == run.halt && stats == run.stats
        && cleanedDocuments == run.kept.cleaned && sentimentResults == run.kept.sentiments
        && categorizationResults == run.kept.categories && insights == run.kept.insights
        && recommendations == run.kept.recommendations
    {
      halt, built := RunFrontStages(input, now);
      if halt.None? {
        halt := RunBackStages();
      }
    }

    /**
     * `process_feedback` after its reset: the stages, then either the error
     * result or the final report and the success result, under task id `id`.
     */
    method Execute(id: string, input: RawInput, ext: Externals)
      returns (result: WorkflowResult, ghost built: seq<FeedbackDocument>)
      requires id != ""
      modifies this`cleanedDocuments, this`sentimentResults, this`categorizationResults, this`insights
      modifies this`recommendations, this`status, this`stats, this`report, reporter
      ensures currentTaskId == old(currentTaskId) && result.taskId == id
      ensures BuiltFrom(built, Prepared(ItemsOf(input), sourceDefault))
      ensures var run := RunOf(built, agents, old(StageOutputs(cleanedDocuments, sentimentResults,
                                                               categorizationResults, insights, recommendations)),
                               old(stats));
        cleanedDocuments == run.kept.cleaned && sentimentResults == run.kept.sentiments
        && categorizationResults == run.kept.categories && insights == run.kept.insights
        && recommendations == run.kept.recommendations
        && stats == FinalStats(run) && result.stats == stats
        && (run.halt.Some? ==>
              status == Error && report == old(report)
              && result == Failure(id, run.halt.value.stage, run.halt.value.reason, stats))
        && (run.halt.None? ==>
              status == Done && result.Success? && report == Some(result.report)
              && result.report == FinalReport(id, Report.GeneratedFiles(reporter.outputDir, id, "all",
                                                                        ext.htmlFailure, ext.jsonFailure),
                                              run.kept, stats.errorsEncountered))
    {
      var halt;
      halt, built := RunStages(input, ext.now);
      result := Complete(id, halt, ext);
    }

    /**
     * `process_feedback`: a fresh task id, status "processing" and zeroed
     * counters, then the stages and the result.
     */
    method ProcessFeedback(input: RawInput, taskId: Option<string>, stamp: string, ext: Externals)
      returns (result: WorkflowResult, ghost built: seq<FeedbackDocument>)
      modifies this, reporter
      ensures result.taskId == Report.TaskIdOr(taskId, "task_" + stamp) && currentTaskId == Some(result.taskId)
      ensures BuiltFrom(built, Prepared(ItemsOf(input), sourceDefault))
      ensures var run := RunOf(built, agents, old(StageOutputs(cleanedDocuments, sentimentResults,
                                                               categorizationResults, insights, recommendations)),
                               ZeroStats);
        cleanedDocuments == run.kept.cleaned && sentimentResults == run.kept.sentiments
        && categorizationResults == run.kept.categories && insights == run.kept.insights
        && recommendations == run.kept.recommendations
        && stats == FinalStats(run) && result.stats == stats
        && (run.halt.Some? ==>
              status == Error && report == old(report)
              && result == Failure(result.taskId, run.halt.value.stage, run.halt.value.reason, stats))
        && (run.halt.None? ==>
              status == Done && result.Success? && report == Some(result.report)
              && result.report == FinalReport(result.taskId,
                                              Report.GeneratedFiles(reporter.outputDir, result.taskId, "all",
                                                                    ext.htmlFailure, ext.jsonFailure),
                                              run.kept, stats.errorsEncountered))
    {
      var id := Start(taskId, stamp);
      result, built := Execute(id, input, ext);
    }

    /**
     * `process_feedback` as written on a batch in which no item names a
     * source: the collection stage fails and the result counts two errors.
     */
    method ProcessUnsourcedBatch(input: RawInput, taskId: Option<string>, stamp: string, ext: Externals)
      returns (result: WorkflowResult)
      requires sourceDefault == WrittenSourceDefault
      requires forall i :: 0 <= i < |ItemsOf(input)| ==> "source" !in FieldsOf(ItemsOf(input)[i])
      modifies this, reporter
      ensures result.Failure? && result.stage == Collection && result.reason == NoValidDocuments
      ensures result.stats.errorsEncountered == 2 && status == Error
    {
      ghost var kept := StageOutputs(cleanedDocuments, sentimentResults, categorizationResults, insights, recommendations);
      ghost var built;
      result, built := ProcessFeedback(input, taskId, stamp, ext);
      UnsourcedBatchFails(ItemsOf(input), built, agents, kept);
    }
  }
}
