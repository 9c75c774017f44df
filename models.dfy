/**
 * The records and enumerations the pipeline passes between its stages.
 * Enumerations are `str` enums in the system, so each has the string value
 * it compares equal to.  Range constraints on fields become subset types,
 * so an out-of-range record cannot be built at all.
 */
module Models {
  import opened Wrappers
  import opened Collections

  datatype FeedbackSource =
    | ExpertReport | InternalAssessment | PeerReview | TechnicalReview
    | ProcessEvaluation | QualityAudit | OtherSource
  {
    function Value(): string {
      match this
      case ExpertReport => "expert_report"
      case InternalAssessment => "internal_assessment"
      case PeerReview => "peer_review"
      case TechnicalReview => "technical_review"
      case ProcessEvaluation => "process_evaluation"
      case QualityAudit => "quality_audit"
      case OtherSource => "other"
    }
  }

  /** Enum coercion of a string field: only the seven values are accepted. */
  function ParseFeedbackSource(v: string): (r: Option<FeedbackSource>)
    ensures r.Some? ==> r.value.Value() == v
    ensures r.None? ==> forall s: FeedbackSource :: s.Value() != v
  {
    if v == "expert_report" then Some(ExpertReport)
    else if v == "internal_assessment" then Some(InternalAssessment)
    else if v == "peer_review" then Some(PeerReview)
    else if v == "technical_review" then Some(TechnicalReview)
    else if v == "process_evaluation" then Some(ProcessEvaluation)
    else if v == "quality_audit" then Some(QualityAudit)
    else if v == "other" then Some(OtherSource)
    else None
  }

  datatype SentimentType = Positive | Negative | Neutral | Mixed
  {
    function Value(): string {
      match this
      case Positive => "positive"
      case Negative => "negative"
      case Neutral => "neutral"
      case Mixed => "mixed"
    }
  }

  datatype FeedbackCategory =
    | TechnicalIssues | ProceduralInefficiencies | ResourceAllocation | Communication
    | TrainingNeeds | SystemImprovements | PolicyRecommendations | Other
  {
    function Value(): string {
      match this
      case TechnicalIssues => "technical_issues"
      case ProceduralInefficiencies => "procedural_inefficiencies"
      case ResourceAllocation => "resource_allocation"
      case Communication => "communication"
      case TrainingNeeds => "training_needs"
      case SystemImprovements => "system_improvements"
      case PolicyRecommendations => "policy_recommendations"
      case Other => "other"
    }
  }

  /** The categories in declaration order, which is the enum's iteration order. */
  const AllCategories: seq<FeedbackCategory> :=
    [TechnicalIssues, ProceduralInefficiencies, ResourceAllocation, Communication,
     TrainingNeeds, SystemImprovements, PolicyRecommendations, Other]

  /** Exactly eight categories, all distinct, with distinct values, `Other` the last. */
  lemma AllCategoriesComplete(c: FeedbackCategory)
    ensures c in AllCategories
    ensures |AllCategories| == 8 && Distinct(AllCategories) && AllCategories[7] == Other
    ensures forall i, j :: 0 <= i < j < 8 ==> AllCategories[i].Value() != AllCategories[j].Value()
  {
  }

  datatype ProcessingStatus = Pending | Processing | Completed | Failed
  {
    function Value(): string {
      match this
      case Pending => "pending"
      case Processing => "processing"
      case Completed => "completed"
      case Failed => "failed"
    }
  }

  /** The `status` string an agent or the workflow manager keeps while it runs a batch. */
  datatype RunStatus = Idle | Running | Done | Error
  {
    function Value(): string {
      match this
      case Idle => "idle"
      case Running => "processing"
      case Done => "completed"
      case Error => "error"
    }
  }

  /** A value held in a document's metadata dict. */
  datatype MetaValue = IntVal(i: int) | RealVal(x: real) | StrVal(s: string)

  /**
   * An incoming feedback document.  Its text fields are never reassigned by
   * the pipeline; collection sets `source` and extends `metadata` in place.
   */
  class FeedbackDocument {
    const id: Option<string>
    const filename: string
    const content: string
    const contentType: Option<string>
    var source: Option<FeedbackSource>
    var metadata: map<string, MetaValue>

    constructor (id: Option<string>, filename: string, content: string, contentType: Option<string>,
                 source: Option<FeedbackSource>, metadata: map<string, MetaValue>)
      ensures this.id == id && this.filename == filename && this.content == content
      ensures this.contentType == contentType && this.source == source && this.metadata == metadata
    {
      this.id := id;
      this.filename := filename;
      this.content := content;
      this.contentType := contentType;
      this.source := source;
      this.metadata := metadata;
    }
  }

  datatype CleanedDocument = CleanedDocument(
    originalId: string,
    cleanedContent: string,
    extractedEntities: seq<string>,
    language: string,
    wordCount: int,
    qualityScore: real,
    preprocessingNotes: seq<string>)

  /** A cleaned document built with only its two required fields. */
  function DefaultCleanedDocument(originalId: string, cleanedContent: string): (d: CleanedDocument)
    ensures d.originalId == originalId && d.cleanedContent == cleanedContent
    ensures d.language == "en" && d.wordCount == 0 && d.qualityScore == 0.0
    ensures d.extractedEntities == [] && d.preprocessingNotes == []
  {
    CleanedDocument(originalId, cleanedContent, [], "en", 0, 0.0, [])
  }

  /** A sentiment score: `Field(ge=-1.0, le=1.0)`. */
  type Score = r: real | -1.0 <= r <= 1.0

  /** A confidence: `Field(ge=0.0, le=1.0)`. */
  type Unit = r: real | 0.0 <= r <= 1.0

  datatype SentimentAnalysis = SentimentAnalysis(
    documentId: string,
    overallSentiment: SentimentType,
    sentimentScore: Score,
    confidence: Unit,
    breakdown: map<string, real>,
    keyPhrases: seq<string>,
    emotionalIndicators: seq<string>)

  /**
   * Building a sentiment result: validation rejects a score outside [-1, 1]
   * or a confidence outside [0, 1], and otherwise keeps every field as given.
   */
  function MakeSentimentAnalysis(
    documentId: string, overall: SentimentType, score: real, confidence: real,
    breakdown: map<string, real>, keyPhrases: seq<string>, indicators: seq<string>)
    : (r: Option<SentimentAnalysis>)
    ensures r.Some? <==> -1.0 <= score <= 1.0 && 0.0 <= confidence <= 1.0
    ensures r.Some? ==> (r.value.sentimentScore == score && r.value.confidence == confidence
                         && r.value.documentId == documentId && r.value.overallSentiment == overall
                         && r.value.breakdown == breakdown && r.value.keyPhrases == keyPhrases
                         && r.value.emotionalIndicators == indicators)
  {
    if -1.0 <= score <= 1.0 && 0.0 <= confidence <= 1.0 then
      Some(SentimentAnalysis(documentId, overall, score, confidence, breakdown, keyPhrases, indicators))
    else None
  }

  datatype CategoryResult = CategoryResult(
    documentId: string,
    primaryCategory: FeedbackCategory,
    secondaryCategories: seq<FeedbackCategory>,
    categoryConfidence: map<FeedbackCategory, real>,
    keywords: seq<string>,
    topics: seq<string>)

  datatype InsightData = InsightData(
    insightType: string,
    description: string,
    supportingEvidence: seq<string>,
    frequency: int,
    severity: string,
    trendDirection: Option<string>,
    affectedAreas: seq<string>)

  /** An insight built with only its two required fields. */
  function DefaultInsight(insightType: string, description: string): (i: InsightData)
    ensures i.insightType == insightType && i.description == description
    ensures i.frequency == 1 && i.severity == "medium" && i.trendDirection == None
    ensures i.supportingEvidence == [] && i.affectedAreas == []
  {
    InsightData(insightType, description, [], 1, "medium", None, [])
  }

  datatype Recommendation = Recommendation(
    title: string,
    description: string,
    priority: string,
    category: string,
    implementationEffort: string,
    expectedImpact: string,
    timeline: string,
    resourcesRequired: seq<string>,
    successMetrics: seq<string>,
    relatedInsights: seq<string>)

  /** A recommendation built with only its three required fields. */
  function DefaultRecommendation(title: string, description: string, category: string): (r: Recommendation)
    ensures r.title == title && r.description == description && r.category == category
    ensures r.priority == "medium" && r.implementationEffort == "medium" && r.expectedImpact == "medium"
    ensures r.timeline == "short-term"
    ensures r.resourcesRequired == [] && r.successMetrics == [] && r.relatedInsights == []
  {
    Recommendation(title, description, "medium", category, "medium", "medium", "short-term", [], [], [])
  }

  /** A processed batch: the stage outputs and the summary statistics computed from them. */
  datatype ProcessingResult = ProcessingResult(
    batchId: string,
    totalDocuments: nat,
    processedDocuments: nat,
    failedDocuments: nat,
    sentimentResults: seq<SentimentAnalysis>,
    categorizationResults: seq<CategoryResult>,
    insights: seq<InsightData>,
    recommendations: seq<Recommendation>,
    sentimentDistribution: Counter<string>,
    categoryDistribution: Counter<string>,
    averageConfidence: real,
    dataQualityScore: real)

  /** A unit of work handed to an agent; `R` is the type of its result. */
  datatype AgentTask<R> = AgentTask(
    taskId: string,
    agentName: string,
    taskType: string,
    status: ProcessingStatus,
    result: Option<R>,
    errorMessage: Option<string>)

  /** A task as created: pending, with no result and no error. */
  function NewAgentTask<R>(taskId: string, agentName: string, taskType: string): (t: AgentTask<R>)
    ensures t.status == Pending && t.result == None && t.errorMessage == None
    ensures t.taskId == taskId && t.agentName == agentName && t.taskType == taskType
  {
    AgentTask(taskId, agentName, taskType, Pending, None, None)
  }
}
