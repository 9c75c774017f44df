/**
 * The recommendation agent: each insight is turned into up to nine candidate
 * recommendations (at most three affected areas, at most three actions per
 * area) by filling a text template chosen by the insight type; priority and
 * effort come from the template's lookup tables, the timeline, resources and
 * success metrics from fixed decision rules.  The candidates are then grouped
 * by title prefix and description head, the best-priority candidate of each
 * group is kept, and the survivors are sorted by priority and effort.
 */
module Recommendations {
  import opened Wrappers
  import opened Text
  import opened Collections
  import opened Models

  // ------------------------------------------------------------ templates

  /** The insight types that have a template; any other type uses the trend template. */
  datatype Kind =
    | Trend | Pattern | Anomaly | Correlation | SentimentShift | EmergingTopic
    | FrequentIssue | ImprovementArea | SuccessStory | FeedbackQuality
  {
    function Name(): string {
      match this
      case Trend => "trend"
      case Pattern => "pattern"
      case Anomaly => "anomaly"
      case Correlation => "correlation"
      case SentimentShift => "sentiment_shift"
      case EmergingTopic => "emerging_topic"
      case FrequentIssue => "frequent_issue"
      case ImprovementArea => "improvement_area"
      case SuccessStory => "success_story"
      case FeedbackQuality => "feedback_quality"
    }
  }

  /** `recommendation_templates.get(insight_type, recommendation_templates['trend'])`, as a template kind. */
  function KindOf(insightType: string): (k: Kind)
    ensures k.Name() == insightType || (k == Trend && forall other: Kind :: other.Name() != insightType)
  {
    if insightType == "pattern" then Pattern
    else if insightType == "anomaly" then Anomaly
    else if insightType == "correlation" then Correlation
    else if insightType == "sentiment_shift" then SentimentShift
    else if insightType == "emerging_topic" then EmergingTopic
    else if insightType == "frequent_issue" then FrequentIssue
    else if insightType == "improvement_area" then ImprovementArea
    else if insightType == "success_story" then SuccessStory
    else if insightType == "feedback_quality" then FeedbackQuality
    else Trend
  }

  /** The placeholders the templates use; `Name` is the placeholder as written. */
  datatype Param =
    | Category | TrendDirection | SentimentName | SentimentCapitalized | Severity | Frequency
    | Area | PatternKind | Category1 | Category2 | Topic | ActionName | Objective
  {
    function Name(): string {
      match this
      case Category => "category"
      case TrendDirection => "trend_direction"
      case SentimentName => "sentiment"
      case SentimentCapitalized => "sentiment_capitalized"
      case Severity => "severity"
      case Frequency => "frequency"
      case Area => "area"
      case PatternKind => "pattern_type"
      case Category1 => "category1"
      case Category2 => "category2"
      case Topic => "topic"
      case ActionName => "action"
      case Objective => "objective"
    }
  }

  /** A piece of a `str.format` template: literal text or a `{name}` placeholder. */
  datatype Piece = Lit(text: string) | Hole(param: Param)

  /** Every placeholder of `t` has a parameter. */
  predicate Fillable(t: seq<Piece>, params: map<Param, string>) {
    forall k :: 0 <= k < |t| && t[k].Hole? ==> t[k].param in params
  }

  /** `t.format(**params)`; `None` stands for the `KeyError` of a placeholder without a parameter. */
  function Format(t: seq<Piece>, params: map<Param, string>): (r: Option<string>)
    ensures r.Some? <==> Fillable(t, params)
  {
    if t == [] then Some("")
    else
      var rest := Format(t[1..], params);
      assert Fillable(t, params) <==> (t[0].Hole? ==> t[0].param in params) && Fillable(t[1..], params) by {
        if (t[0].Hole? ==> t[0].param in params) && Fillable(t[1..], params) {
          forall k | 0 <= k < |t| && t[k].Hole?
            ensures t[k].param in params
          {
            if k > 0 {
              assert t[1..][k - 1] == t[k];
            }
          }
        }
      }
      match t[0]
      case Lit(s) => if rest.Some? then Some(s + rest.value) else None
      case Hole(n) => if n in params && rest.Some? then Some(params[n] + rest.value) else None
  }

  const TrendTitle := [Lit("Address the "), Hole(TrendDirection), Lit(" trend in "), Hole(Category)]
  const TrendText :=
    [Lit("The analysis shows a "), Hole(TrendDirection), Lit(" trend in "), Hole(Category),
     Lit(" feedback. "), Hole(ActionName), Lit(" to "), Hole(Objective), Lit(".")]
  const PatternTitle := [Lit("Address the pattern of "), Hole(PatternKind), Lit(" in "), Hole(Category)]
  const PatternText :=
    [Lit("A consistent pattern of "), Hole(PatternKind), Lit(" has been identified in "), Hole(Category),
     Lit(" feedback. Consider "), Hole(ActionName), Lit(" to "), Hole(Objective), Lit(".")]
  const AnomalyTitle := [Lit("Investigate anomaly in "), Hole(Category)]
  const AnomalyText :=
    [Lit("An anomaly has been detected in "), Hole(Category), Lit(" feedback. "),
     Hole(ActionName), Lit(" to "), Hole(Objective), Lit(".")]
  const CorrelationTitle := [Lit("Address correlation between "), Hole(Category1), Lit(" and "), Hole(Category2)]
  const CorrelationText :=
    [Lit("A correlation has been identified between "), Hole(Category1), Lit(" and "), Hole(Category2),
     Lit(". Consider "), Hole(ActionName), Lit(" to "), Hole(Objective), Lit(".")]
  const SentimentShiftTitle := [Lit("Address "), Hole(SentimentName), Lit(" sentiment in "), Hole(Category)]
  const SentimentShiftText :=
    [Hole(SentimentCapitalized), Lit(" sentiment has been identified in "), Hole(Category),
     Lit(" feedback. "), Hole(ActionName), Lit(" to "), Hole(Objective), Lit(".")]
  const EmergingTopicTitle := [Lit("Address emerging topic: "), Hole(Topic)]
  const EmergingTopicText :=
    [Lit("An emerging topic '"), Hole(Topic), Lit("' has been identified in the feedback. Consider "),
     Hole(ActionName), Lit(" to "), Hole(Objective), Lit(".")]
  const FrequentIssueTitle := [Lit("Resolve frequent issue in "), Hole(Category)]
  const FrequentIssueText :=
    [Lit("A frequent issue has been reported in "), Hole(Category), Lit(". "),
     Hole(ActionName), Lit(" to "), Hole(Objective), Lit(".")]
  const ImprovementAreaTitle := [Lit("Improve "), Hole(Area), Lit(" in "), Hole(Category)]
  const ImprovementAreaText :=
    [Lit("An area for improvement has been identified in "), Hole(Category), Lit(" related to "),
     Hole(Area), Lit(". "), Hole(ActionName), Lit(" to "), Hole(Objective), Lit(".")]
  const SuccessStoryTitle := [Lit("Leverage success in "), Hole(Category)]
  const SuccessStoryText :=
    [Lit("Positive outcomes have been reported in "), Hole(Category), Lit(". Consider "),
     Hole(ActionName), Lit(" to "), Hole(Objective), Lit(".")]
  const FeedbackQualityTitle := [Lit("Improve feedback quality in "), Hole(Category)]
  const FeedbackQualityText :=
    [Lit("Opportunities to improve feedback quality have been identified in "), Hole(Category),
     Lit(". "), Hole(ActionName), Lit(" to "), Hole(Objective), Lit(".")]

  /** The title and description templates of a kind. */
  function TextsFor(k: Kind): (seq<Piece>, seq<Piece>) {
    match k
    case Trend => (TrendTitle, TrendText)
    case Pattern => (PatternTitle, PatternText)
    case Anomaly => (AnomalyTitle, AnomalyText)
    case Correlation => (CorrelationTitle, CorrelationText)
    case SentimentShift => (SentimentShiftTitle, SentimentShiftText)
    case EmergingTopic => (EmergingTopicTitle, EmergingTopicText)
    case FrequentIssue => (FrequentIssueTitle, FrequentIssueText)
    case ImprovementArea => (ImprovementAreaTitle, ImprovementAreaText)
    case SuccessStory => (SuccessStoryTitle, SuccessStoryText)
    case FeedbackQuality => (FeedbackQualityTitle, FeedbackQualityText)
  }

  /** The placeholders the templates of a kind may use. */
  function NeededParams(k: Kind): set<Param> {
    match k
    case Correlation => {Category1, Category2, ActionName, Objective}
    case EmergingTopic => {Topic, ActionName, Objective}
    case _ => {Category, TrendDirection, SentimentName, SentimentCapitalized, PatternKind, Area, ActionName, Objective}
  }

  /** Every placeholder of both templates of a kind is among its needed parameters. */
  lemma TextsUse(k: Kind, params: map<Param, string>)
    requires forall q :: q in NeededParams(k) ==> q in params
    ensures Fillable(TextsFor(k).0, params) && Fillable(TextsFor(k).1, params)
  {
  }

  /** The priority and effort entries of a template; absent entries are `None`. */
  datatype Levels = Levels(
    priorityMap: Option<map<string, string>>,
    effortMap: Option<map<string, string>>,
    priority: Option<string>,
    effort: Option<string>)

  /** The `priority_map`, `effort_map`, `priority` and `effort` entries of a kind's template. */
  function LevelsFor(k: Kind): Levels {
    match k
    case Pattern | Correlation | EmergingTopic | ImprovementArea => Levels(None, None, Some("medium"), Some("medium"))
    case Anomaly | FrequentIssue => Levels(None, None, Some("high"), Some("high"))
    case SuccessStory => Levels(None, None, Some("low"), Some("low"))
    case FeedbackQuality => Levels(None, None, Some("low"), Some("medium"))
    case SentimentShift =>
      Levels(Some(map["positive" := "low", "negative" := "high", "neutral" := "medium"]),
             Some(map["positive" := "low", "negative" := "high", "neutral" := "medium"]),
             None, None)
    case Trend =>
      Levels(Some(map["increasing" := "high", "decreasing" := "medium", "stable" := "low"]),
             Some(map["high" := "high", "medium" := "medium", "low" := "low"]),
             None, None)
  }

  // ------------------------------------------------------------ parameters

  /**
   * `getattr(insight, 'sentiment', 'neutral')`: an `InsightData` has no
   * `sentiment` (nor `sentiment_score`) attribute, so the default applies to
   * every insight.
   */
  const InsightSentiment := "neutral"

  /** `hasattr(insight, 'sentiment')`, false for every `InsightData`. */
  const InsightHasSentiment := false

  /** `str()` of the optional trend direction, as `format` renders it. */
  function DirectionText(t: Option<string>): string {
    match t
    case Some(s) => s
    case None => "None"
  }

  /** The `pattern_type` parameter. */
  function PatternType(i: InsightData): string {
    if i.insightType == "pattern" then
      var d := Lower(i.description);
      if Contains(d, "recurring") || Contains(d, "frequent") then "recurring issues"
      else if Contains(d, "increasing") || Contains(d, "growing") then "increasing concerns"
      else if Contains(d, "consistent") then "consistent feedback"
      else "identified patterns"
    else ReplaceChar(i.insightType, '_', ' ')
  }

  /**
   * `_get_recommendation_params`: the eight common parameters are always
   * there, the two correlation categories only for a correlation with at
   * least two areas, the topic only for an emerging topic.
   */
  function Params(i: InsightData): (p: map<Param, string>)
    ensures forall q :: q in p <==>
      q in {Category, TrendDirection, SentimentName, SentimentCapitalized, Severity, Frequency, Area, PatternKind} ||
      (q in {Category1, Category2} && i.insightType == "correlation" && |i.affectedAreas| >= 2) ||
      (q == Topic && i.insightType == "emerging_topic")
    ensures p[SentimentName] == InsightSentiment && p[TrendDirection] == DirectionText(i.trendDirection)
  {
    var areas := i.affectedAreas;
    var base := map[
      Category := if areas != [] then areas[0] else "general",
      TrendDirection := DirectionText(i.trendDirection),
      SentimentName := InsightSentiment,
      SentimentCapitalized := Capitalize(InsightSentiment),
      Severity := i.severity,
      Frequency := IntToString(i.frequency),
      Area := if areas != [] then areas[0] else "the identified area",
      PatternKind := PatternType(i)];
    if i.insightType == "correlation" && |areas| >= 2 then base[Category1 := areas[0]][Category2 := areas[1]]
    else if i.insightType == "emerging_topic" then base[Topic := if areas != [] then areas[0] else "an emerging topic"]
    else base
  }

  /** The parameters of one (area, action) pair: `area_params` updated with the action. */
  function ActionParams(i: InsightData, area: string, a: Action): map<Param, string> {
    Params(i)[Category := area][ActionName := a.0][Objective := a.1]
  }

  /** The two parameters the priority and effort tables look at. */
  lemma ActionParamsLevels(i: InsightData, area: string, a: Action)
    ensures var p := ActionParams(i, area, a);
      SentimentName in p && p[SentimentName] == InsightSentiment &&
      TrendDirection in p && p[TrendDirection] == DirectionText(i.trendDirection)
  {
  }

  /** Every insight but a correlation with fewer than two affected areas has all its template parameters. */
  predicate Fills(i: InsightData) {
    !(i.insightType == "correlation" && |i.affectedAreas| < 2)
  }

  /**
   * Both templates of an insight can be filled for every area and action,
   * except for a correlation with fewer than two affected areas, whose
   * templates name the missing `category1`.
   */
  lemma ActionParamsFill(i: InsightData, area: string, a: Action)
    ensures var k := KindOf(i.insightType);
      (Fillable(TextsFor(k).0, ActionParams(i, area, a)) && Fillable(TextsFor(k).1, ActionParams(i, area, a)))
      <==> Fills(i)
  {
    var k := KindOf(i.insightType);
    var p := ActionParams(i, area, a);
    if !Fills(i) {
      assert k == Correlation by {
        assert Correlation.Name() == i.insightType;
      }
      assert TextsFor(k).0[1] == Hole(Category1);
    } else {
      if k == Correlation || k == EmergingTopic {
        assert k.Name() == i.insightType;
      }
      TextsUse(k, p);
    }
  }

  // ------------------------------------------------------------ actions

  /** An `(action, objective)` pair. */
  type Action = (string, string)

  /** `action_templates[TECHNICAL_ISSUES].get(sentiment, ...['neutral'])`. */
  function TechnicalActions(sentiment: string): (r: seq<Action>)
    ensures |r| == 3
  {
    if sentiment == "positive" then
      [("document and share", "leverage this success in other areas"),
       ("recognize the team", "acknowledge their contribution"),
       ("analyze the success factors", "replicate them elsewhere")]
    else if sentiment == "negative" then
      [("investigate the root cause", "prevent recurrence"),
       ("prioritize bug fixes", "address the most critical issues first"),
       ("improve testing procedures", "catch issues earlier")]
    else
      [("monitor the situation", "identify any emerging patterns"),
       ("gather more data", "better understand the context"),
       ("review documentation", "ensure clarity and completeness")]
  }

  /** `action_templates[PROCEDURAL_INEFFICIENCIES].get(sentiment, ...['neutral'])`. */
  function ProceduralActions(sentiment: string): (r: seq<Action>)
    ensures |r| == 3
  {
    if sentiment == "positive" then
      [("document the process", "share best practices"),
       ("recognize the team", "acknowledge their efficiency"),
       ("consider automation", "further improve productivity")]
    else if sentiment == "negative" then
      [("streamline the process", "reduce inefficiencies"),
       ("review and update procedures", "align with current needs"),
       ("provide additional training", "ensure proper implementation")]
    else
      [("analyze the process", "identify potential improvements"),
       ("gather more feedback", "understand pain points"),
       ("benchmark against industry standards", "identify gaps")]
  }

  predicate KnownSentiment(s: string) { s == "positive" || s == "negative" || s == "neutral" }

  /** `default_actions.get(sentiment, [])`: three actions for a known sentiment, none otherwise. */
  function DefaultActions(sentiment: string): (r: seq<Action>)
    ensures |r| == if KnownSentiment(sentiment) then 3 else 0
  {
    if sentiment == "positive" then
      [("leverage this success", "reinforce positive outcomes"),
       ("recognize the team", "acknowledge their contribution"),
       ("document best practices", "share knowledge across teams")]
    else if sentiment == "negative" then
      [("investigate the issue", "understand the root cause"),
       ("develop an action plan", "address the concerns"),
       ("communicate with stakeholders", "keep them informed")]
    else if sentiment == "neutral" then
      [("monitor the situation", "identify emerging trends"),
       ("gather more information", "better understand the context"),
       ("review related processes", "ensure consistency")]
    else []
  }

  /** The actions of the category table: only two categories have an entry. */
  function CategoryActions(c: FeedbackCategory, sentiment: string): Option<seq<Action>> {
    match c
    case TechnicalIssues => Some(TechnicalActions(sentiment))
    case ProceduralInefficiencies => Some(ProceduralActions(sentiment))
    case _ => None
  }

  const GenericAction: Action := ("take appropriate action", "address this issue")

  /** `cat.value.lower() in area.lower()`. */
  function NamedIn(area: string): FeedbackCategory -> bool {
    (c: FeedbackCategory) => Contains(Lower(area), Lower(c.Value()))
  }

  /** The actions from the category table, when the area names a category that has one. */
  function TableActions(category: Option<FeedbackCategory>, sentiment: string): seq<Action> {
    if category.Some? && CategoryActions(category.value, sentiment).Some? then
      CategoryActions(category.value, sentiment).value
    else []
  }

  /** The actions once the area's category (the first in enum order it names) is known. */
  function ActionsFrom(category: Option<FeedbackCategory>, sentiment: string): seq<Action> {
    var fromTable := TableActions(category, sentiment);
    var withDefaults := if |fromTable| < 3 then fromTable + DefaultActions(sentiment) else fromTable;
    var nonEmpty := if withDefaults == [] then [GenericAction] else withDefaults;
    Take(nonEmpty, 3)
  }


  /**
   * There are always one to three actions: the category table's three when
   * the area names a category that has a table, otherwise the sentiment's
   * three defaults, and the single generic action when neither applies.
   */
  lemma ActionsSpec(category: Option<FeedbackCategory>, sentiment: string)
    ensures var r := ActionsFrom(category, sentiment);
      1 <= |r| <= 3 &&
      (TableActions(category, sentiment) != [] ==> r == TableActions(category, sentiment)) &&
      (TableActions(category, sentiment) == [] && KnownSentiment(sentiment) ==> r == DefaultActions(sentiment)) &&
      (TableActions(category, sentiment) == [] && !KnownSentiment(sentiment) ==> r == [GenericAction])
  {
    var t := TableActions(category, sentiment);
    assert |t| == 0 || |t| == 3;
  }

  /** `_get_actions`: one to three actions for any area. */
  function Actions(sentiment: string, area: string): (r: seq<Action>)
    ensures 1 <= |r| <= 3
  {
    var category := FirstWhere(AllCategories, NamedIn(area));
    ActionsSpec(category, sentiment);
    ActionsFrom(category, sentiment)
  }

  /** A table entry exists exactly for an area naming the technical or procedural category first. */
  lemma TableActionsFor(category: Option<FeedbackCategory>, sentiment: string)
    ensures TableActions(category, sentiment) != [] <==>
      category == Some(TechnicalIssues) || category == Some(ProceduralInefficiencies)
  {
  }

  /** `_get_actions` as written: the search over the categories with its `break`, then the table lookups. */
  method GetActions(sentiment: string, area: string) returns (actions: seq<Action>)
    ensures actions == Actions(sentiment, area)
  {
    var category := FindFirst(AllCategories, NamedIn(area));
    actions := ActionsFrom(category, sentiment);
  }

  // ------------------------------------------------------------ decision tables

  /**
   * `_determine_priority` and `_determine_effort`: the template's table keyed
   * first by the sentiment, then by the trend direction, else the template's
   * own value, else "medium".
   */
  function Resolve(table: Option<map<string, string>>, own: Option<string>, params: map<Param, string>): string {
    if table.Some? && SentimentName in params && params[SentimentName] in table.value then
      table.value[params[SentimentName]]
    else if table.Some? && TrendDirection in params && params[TrendDirection] in table.value then
      table.value[params[TrendDirection]]
    else if own.Some? then own.value
    else "medium"
  }

  function Priority(i: InsightData, area: string, a: Action): string {
    var k := KindOf(i.insightType);
    Resolve(LevelsFor(k).priorityMap, LevelsFor(k).priority, ActionParams(i, area, a))
  }

  function Effort(i: InsightData, area: string, a: Action): string {
    var k := KindOf(i.insightType);
    Resolve(LevelsFor(k).effortMap, LevelsFor(k).effort, ActionParams(i, area, a))
  }

  /** The trend template's priority for a trend direction. */
  function TrendPriority(t: Option<string>): string {
    if t == Some("increasing") then "high"
    else if t == Some("decreasing") then "medium"
    else if t == Some("stable") then "low"
    else "medium"
  }

  /**
   * Priority by template, for parameters whose sentiment is the default
   * "neutral": the sentiment-shift table then gives "medium"; the trend
   * template (also used for unknown types) goes by the trend direction;
   * every other template has a fixed priority.
   */
  lemma PriorityByKind(k: Kind, p: map<Param, string>, direction: Option<string>)
    requires SentimentName in p && p[SentimentName] == InsightSentiment
    requires TrendDirection in p && p[TrendDirection] == DirectionText(direction)
    ensures var r := Resolve(LevelsFor(k).priorityMap, LevelsFor(k).priority, p);
      (k == SentimentShift ==> r == "medium") &&
      (k in {Anomaly, FrequentIssue} ==> r == "high") &&
      (k in {Pattern, Correlation, EmergingTopic, ImprovementArea} ==> r == "medium") &&
      (k in {SuccessStory, FeedbackQuality} ==> r == "low") &&
      (k == Trend ==> r == TrendPriority(direction))
  {
  }

  /**
   * Effort by template, for parameters whose sentiment is the default
   * "neutral": the sentiment-shift table then gives "medium"; the trend
   * template's effort table is keyed by effort levels, so it only applies
   * when the trend direction happens to be one, and "medium" is used
   * otherwise; every other template has a fixed effort.
   */
  lemma EffortByKind(k: Kind, p: map<Param, string>, direction: Option<string>)
    requires SentimentName in p && p[SentimentName] == InsightSentiment
    requires TrendDirection in p && p[TrendDirection] == DirectionText(direction)
    ensures var r := Resolve(LevelsFor(k).effortMap, LevelsFor(k).effort, p);
      var t := DirectionText(direction);
      (k in {SentimentShift, Pattern, Correlation, EmergingTopic, ImprovementArea, FeedbackQuality} ==> r == "medium") &&
      (k in {Anomaly, FrequentIssue} ==> r == "high") &&
      (k == SuccessStory ==> r == "low") &&
      (k == Trend ==> r == if t in {"high", "medium", "low"} then t else "medium")
  {
  }

  /** Priorities and efforts are always one of the three levels "high", "medium", "low". */
  lemma LevelValues(i: InsightData, area: string, a: Action)
    ensures Priority(i, area, a) in {"high", "medium", "low"}
    ensures Effort(i, area, a) in {"high", "medium", "low"}
  {
    ActionParamsLevels(i, area, a);
    var k := KindOf(i.insightType);
    PriorityByKind(k, ActionParams(i, area, a), i.trendDirection);
    EffortByKind(k, ActionParams(i, area, a), i.trendDirection);
  }

  /** `_determine_timeline`. */
  function Timeline(priority: string, effort: string): string {
    if priority == "critical" || (priority == "high" && effort == "high") then "immediate"
    else if priority == "high" || (priority == "medium" && effort == "high") then "short-term"
    else if priority == "medium" || (priority == "low" && effort == "high") then "medium-term"
    else "long-term"
  }

  /** `{'critical': 0, 'high': 1, 'medium': 2, 'low': 3}.get(priority, 4)`. */
  function PriorityRank(p: string): nat {
    if p == "critical" then 0
    else if p == "high" then 1
    else if p == "medium" then 2
    else if p == "low" then 3
    else 4
  }

  /** `0 if effort == 'high' else 1 if effort == 'medium' else 2`. */
  function EffortRank(e: string): nat {
    if e == "high" then 0 else if e == "medium" then 1 else 2
  }

  function TimelineRank(t: string): nat {
    if t == "immediate" then 0
    else if t == "short-term" then 1
    else if t == "medium-term" then 2
    else 3
  }

  /**
   * The timeline is one of the four values and never gets later as the
   * priority rises or as the effort becomes "high": a more urgent or a
   * bigger job is scheduled no later.
   */
  lemma TimelineMonotone(p1: string, p2: string, e1: string, e2: string)
    ensures Timeline(p1, e1) in {"immediate", "short-term", "medium-term", "long-term"}
    ensures PriorityRank(p1) <= PriorityRank(p2) ==> TimelineRank(Timeline(p1, e1)) <= TimelineRank(Timeline(p2, e1))
    ensures e1 == "high" ==> TimelineRank(Timeline(p1, e1)) <= TimelineRank(Timeline(p1, e2))
    ensures Timeline(p1, e1) == "immediate" <==> p1 == "critical" || (p1 == "high" && e1 == "high")
  {
  }

  // ------------------------------------------------------------ resources and metrics

  /** The resources `_determine_resources` can ask for; `Name` is the text it uses. */
  datatype Resource =
    | CrossFunctionalTeam | DevelopmentTime | BudgetAllocation | TechnicalExpertise
    | ProcessImprovementTeam | StandardResources
  {
    function Name(): string {
      match this
      case CrossFunctionalTeam => "cross-functional team"
      case DevelopmentTime => "dedicated development time"
      case BudgetAllocation => "budget allocation"
      case TechnicalExpertise => "technical expertise"
      case ProcessImprovementTeam => "process improvement team"
      case StandardResources => "standard team resources"
    }
  }

  /** The resource a text names, if any: the inverse of `Name`. */
  function ResourceNamed(s: string): (r: Option<Resource>)
    ensures r.Some? ==> r.value.Name() == s
  {
    if s == "cross-functional team" then Some(CrossFunctionalTeam)
    else if s == "dedicated development time" then Some(DevelopmentTime)
    else if s == "budget allocation" then Some(BudgetAllocation)
    else if s == "technical expertise" then Some(TechnicalExpertise)
    else if s == "process improvement team" then Some(ProcessImprovementTeam)
    else if s == "standard team resources" then Some(StandardResources)
    else None
  }

  /** Every resource is recovered from its name, so names never coincide. */
  lemma ResourceNameRoundTrip(r: Resource)
    ensures ResourceNamed(r.Name()) == Some(r)
  {
  }

  /** The resources asked for by priority. */
  function PriorityResources(priority: string): seq<Resource> {
    if priority == "high" || priority == "critical" then [CrossFunctionalTeam] else []
  }

  /** The resources asked for by effort. */
  function EffortResources(effort: string): seq<Resource> {
    if effort == "high" then [DevelopmentTime, BudgetAllocation]
    else if effort == "medium" then [DevelopmentTime]
    else []
  }

  /** The resources asked for by the area's name. */
  function AreaResources(area: string): (r: seq<Resource>)
    ensures forall x :: x in r ==> x in {TechnicalExpertise, ProcessImprovementTeam}
  {
    var a := Lower(area);
    (if Contains(a, "technical") then [TechnicalExpertise] else []) +
    (if Contains(a, "process") || Contains(a, "procedural") then [ProcessImprovementTeam] else [])
  }

  /** The resources before `list(set(...))`, in the order they are appended. */
  function ResourceList(priority: string, effort: string, area: string): seq<Resource> {
    var all := PriorityResources(priority) + EffortResources(effort) + AreaResources(area);
    if all == [] then [StandardResources] else all
  }

  /** `_determine_resources`; `list(set(...))` is taken in order of first appearance. */
  function Resources(priority: string, effort: string, area: string): seq<Resource> {
    Dedup(ResourceList(priority, effort, area))
  }

  /**
   * Before the repeats are removed: a cross-functional team is asked for
   * exactly at high or critical priority, development time exactly at high
   * or medium effort, and a budget exactly at high effort.
   */
  lemma ResourceListLevels(priority: string, effort: string, area: string)
    ensures var l := ResourceList(priority, effort, area);
      (CrossFunctionalTeam in l <==> priority == "high" || priority == "critical") &&
      (DevelopmentTime in l <==> effort == "high" || effort == "medium") &&
      (BudgetAllocation in l <==> effort == "high")
  {
    var all := PriorityResources(priority) + EffortResources(effort) + AreaResources(area);
    assert forall x :: x in all <==>
      x in PriorityResources(priority) || x in EffortResources(effort) || x in AreaResources(area);
  }

  /**
   * Before the repeats are removed: technical expertise is asked for
   * exactly for a technical area, a process team exactly for a process
   * area, and the standard resources exactly when nothing else applies,
   * so the list is never empty.
   */
  lemma ResourceListAreas(priority: string, effort: string, area: string)
    ensures var l := ResourceList(priority, effort, area);
      var a := Lower(area);
      l != [] &&
      (TechnicalExpertise in l <==> Contains(a, "technical")) &&
      (ProcessImprovementTeam in l <==> Contains(a, "process") || Contains(a, "procedural")) &&
      (StandardResources in l <==> l == [StandardResources])
  {
    var all := PriorityResources(priority) + EffortResources(effort) + AreaResources(area);
    assert forall x :: x in all <==>
      x in PriorityResources(priority) || x in EffortResources(effort) || x in AreaResources(area);
    assert StandardResources !in all;
  }

  /**
   * `_determine_resources` asks for the same resources as the list it
   * builds, never an empty list and never one twice.
   */
  lemma ResourcesSpec(priority: string, effort: string, area: string)
    ensures var r := Resources(priority, effort, area);
      r != [] && Distinct(r) &&
      (forall x :: x in r <==> x in ResourceList(priority, effort, area)) &&
      (StandardResources in r <==> r == [StandardResources])
  {
    var l := ResourceList(priority, effort, area);
    var r := Resources(priority, effort, area);
    ResourceListAreas(priority, effort, area);
    forall x
      ensures x in r <==> x in l
    {
      DedupMembers(l, x);
    }
    assert l[0] in r;
    if l == [StandardResources] {
      assert r[0] == StandardResources;
    }
  }

  /** `_determine_resources` as written: the appends, the fallback, then `list(set(...))`. */
  method DetermineResources(priority: string, effort: string, area: string) returns (resources: seq<string>)
    ensures resources == ResourceNames(Resources(priority, effort, area))
  {
    var list: seq<Resource> := [];
    if priority == "high" || priority == "critical" {
      list := list + [CrossFunctionalTeam];
    }
    assert list == PriorityResources(priority);
    if effort == "high" {
      list := list + [DevelopmentTime, BudgetAllocation];
    } else if effort == "medium" {
      list := list + [DevelopmentTime];
    }
    assert list == PriorityResources(priority) + EffortResources(effort);
    ghost var before := list;
    var a := Lower(area);
    if Contains(a, "technical") {
      list := list + [TechnicalExpertise];
    }
    if Contains(a, "process") || Contains(a, "procedural") {
      list := list + [ProcessImprovementTeam];
    }
    assert list == before + AreaResources(area);
    if list == [] {
      list := [StandardResources];
    }
    resources := ResourceNames(Dedup(list));
  }

  /** The resource texts of a recommendation. */
  function ResourceNames(rs: seq<Resource>): (names: seq<string>)
    ensures |names| == |rs|
    ensures forall j :: 0 <= j < |rs| ==> ResourceNamed(names[j]) == Some(rs[j])
  {
    seq(|rs|, j requires 0 <= j < |rs| => rs[j].Name())
  }

  /** Distinct resources have distinct names. */
  lemma ResourceNamesDistinct(rs: seq<Resource>)
    requires Distinct(rs)
    ensures Distinct(ResourceNames(rs))
  {
    var names := ResourceNames(rs);
    forall i, j | 0 <= i < j < |rs|
      ensures names[i] != names[j]
    {
      assert ResourceNamed(names[i]) == Some(rs[i]);
      assert ResourceNamed(names[j]) == Some(rs[j]);
    }
  }

  function SentimentMetric(area: string): string { "Improvement in " + area + " sentiment score" }
  function ReductionMetric(area: string): string { "Reduction in " + area + " related issues" }
  function ReplicationMetric(area: string): string { "Replication of " + area + " success in other areas" }
  function StakeholderMetric(area: string): string { "Stakeholder satisfaction with " + area + " improvements" }
  function ResolutionMetric(area: string): string { "Time to resolution for " + area + " related items" }

  /** `_determine_success_metrics`; `hasSentiment` is `hasattr(insight, 'sentiment')`. */
  function SuccessMetrics(hasSentiment: bool, insightType: string, area: string): seq<string> {
    var all :=
      (if hasSentiment then [SentimentMetric(area)] else []) +
      (if insightType == "frequent_issue" || insightType == "improvement_area" then [ReductionMetric(area)] else []) +
      (if insightType == "success_story" then [ReplicationMetric(area)] else []) +
      [StakeholderMetric(area), ResolutionMetric(area)];
    Take(all, 3)
  }

  /**
   * Two or three metrics, the stakeholder-satisfaction one always among
   * them; without a sentiment attribute the time-to-resolution one too, and
   * the type-specific metric comes first exactly for the three types that
   * have one.
   */
  lemma SuccessMetricsSpec(hasSentiment: bool, insightType: string, area: string)
    ensures var m := SuccessMetrics(hasSentiment, insightType, area);
      2 <= |m| <= 3 &&
      StakeholderMetric(area) in m &&
      (!hasSentiment ==> ResolutionMetric(area) in m) &&
      (!hasSentiment && (insightType == "frequent_issue" || insightType == "improvement_area") ==>
         m == [ReductionMetric(area), StakeholderMetric(area), ResolutionMetric(area)]) &&
      (!hasSentiment && insightType == "success_story" ==>
         m == [ReplicationMetric(area), StakeholderMetric(area), ResolutionMetric(area)])
  {
    var m := SuccessMetrics(hasSentiment, insightType, area);
    if hasSentiment && (insightType == "frequent_issue" || insightType == "improvement_area" || insightType == "success_story") {
      assert m[2] == StakeholderMetric(area);
    } else if hasSentiment {
      assert m[1] == StakeholderMetric(area);
    } else if insightType == "frequent_issue" || insightType == "improvement_area" || insightType == "success_story" {
      assert m[1] == StakeholderMetric(area);
      assert m[2] == ResolutionMetric(area);
    } else {
      assert m[0] == StakeholderMetric(area);
      assert m[1] == ResolutionMetric(area);
    }
  }

  /** `_determine_success_metrics` as written: the conditional appends, the general pair, the cut. */
  method DetermineSuccessMetrics(hasSentiment: bool, insightType: string, area: string) returns (metrics: seq<string>)
    ensures metrics == SuccessMetrics(hasSentiment, insightType, area)
  {
    metrics := [];
    if hasSentiment {
      metrics := metrics + [SentimentMetric(area)];
    }
    if insightType == "frequent_issue" || insightType == "improvement_area" {
      metrics := metrics + [ReductionMetric(area)];
    }
    if insightType == "success_story" {
      metrics := metrics + [ReplicationMetric(area)];
    }
    metrics := metrics + [StakeholderMetric(area), ResolutionMetric(area)];
    metrics := Take(metrics, 3);
  }

  // ------------------------------------------------------------ candidates

  /** The recommendation built from filled templates, with the derived fields. */
  function Built(i: InsightData, area: string, a: Action, title: string, description: string): Recommendation {
    var priority := Priority(i, area, a);
    var effort := Effort(i, area, a);
    Recommendation(
      title, description, priority, i.insightType, effort, priority,
      Timeline(priority, effort),
      ResourceNames(Resources(priority, effort, area)),
      SuccessMetrics(InsightHasSentiment, i.insightType, area),
      [i.insightType])
  }

  /** The recommendation for one (area, action) pair; `None` when a template cannot be filled. */
  function Candidate(i: InsightData, area: string, a: Action): Option<Recommendation> {
    var k := KindOf(i.insightType);
    var params := ActionParams(i, area, a);
    var title := Format(TextsFor(k).0, params);
    var description := Format(TextsFor(k).1, params);
    if title.None? || description.None? then None
    else Some(Built(i, area, a, title.value, description.value))
  }

  /** `Candidate` as a function of the action. */
  function CandidateFor(i: InsightData, area: string): Action -> Option<Recommendation> {
    a => Candidate(i, area, a)
  }

  /** What every candidate recommendation of an insight satisfies. */
  predicate Consistent(i: InsightData, r: Recommendation) {
    r.category == i.insightType && r.relatedInsights == [i.insightType] &&
    r.expectedImpact == r.priority &&
    r.priority in {"high", "medium", "low"} && r.implementationEffort in {"high", "medium", "low"} &&
    r.timeline == Timeline(r.priority, r.implementationEffort) &&
    r.resourcesRequired != [] && Distinct(r.resourcesRequired) &&
    2 <= |r.successMetrics| <= 3
  }

  /**
   * A built recommendation carries the insight's type, the resolved
   * priority and effort, and derived fields consistent with them.
   */
  lemma BuiltConsistent(i: InsightData, area: string, a: Action, title: string, description: string)
    ensures var r := Built(i, area, a, title, description);
      Consistent(i, r) && r.title == title && r.description == description &&
      r.priority == Priority(i, area, a) && r.implementationEffort == Effort(i, area, a)
  {
    var priority := Priority(i, area, a);
    var effort := Effort(i, area, a);
    LevelValues(i, area, a);
    ResourcesSpec(priority, effort, area);
    ResourceNamesDistinct(Resources(priority, effort, area));
    SuccessMetricsSpec(InsightHasSentiment, i.insightType, area);
  }

  /**
   * A candidate exists exactly when the insight is not a correlation
   * lacking a second area, and it is then consistent with the insight.
   */
  lemma CandidateSpec(i: InsightData, area: string, a: Action)
    ensures Candidate(i, area, a).Some? <==> Fills(i)
    ensures Candidate(i, area, a).Some? ==> Consistent(i, Candidate(i, area, a).value)
  {
    ActionParamsFill(i, area, a);
    var c := Candidate(i, area, a);
    if c.Some? {
      BuiltConsistent(i, area, a, c.value.title, c.value.description);
    }
  }

  /** The recommendations for one area: one per action whose templates fill. */
  function AreaRecommendations(i: InsightData, area: string): seq<Recommendation> {
    Successes(Actions(InsightSentiment, area), CandidateFor(i, area))
  }

  /** `AreaRecommendations` as a function of the area. */
  function AreaRecommendationsFor(i: InsightData): string -> seq<Recommendation> {
    area => AreaRecommendations(i, area)
  }

  /** `(insight.affected_areas or ['general'])[:3]`. */
  function AreasOf(i: InsightData): (r: seq<string>)
    ensures 1 <= |r| <= 3
  {
    Take(if i.affectedAreas == [] then ["general"] else i.affectedAreas, 3)
  }

  /** `_generate_insight_recommendations`. */
  function InsightRecommendations(i: InsightData): seq<Recommendation> {
    FlatMap(AreasOf(i), AreaRecommendationsFor(i))
  }

  /** Whether a candidate exists depends only on the insight. */
  lemma CandidateForSome(i: InsightData, area: string, acts: seq<Action>)
    ensures forall j :: 0 <= j < |acts| ==> (CandidateFor(i, area)(acts[j]).Some? <==> Fills(i))
  {
    forall j | 0 <= j < |acts|
      ensures CandidateFor(i, area)(acts[j]).Some? <==> Fills(i)
    {
      CandidateSpec(i, area, acts[j]);
    }
  }

  /** One area yields one to three recommendations, or none for a correlation lacking a second area. */
  lemma AreaRecommendationsSize(i: InsightData, area: string)
    ensures var r := AreaRecommendations(i, area);
      |r| <= 3 && (!Fills(i) ==> r == []) && (Fills(i) ==> 1 <= |r|)
  {
    var acts := Actions(InsightSentiment, area);
    CandidateForSome(i, area, acts);
    if !Fills(i) {
      SuccessesNone(acts, CandidateFor(i, area));
    } else {
      SuccessesAllSome(acts, CandidateFor(i, area));
    }
  }

  /**
   * An insight yields at most nine candidates, at least one per area it
   * covers, and none only when it is a correlation lacking a second area.
   */
  lemma InsightRecommendationsSize(i: InsightData)
    ensures |InsightRecommendations(i)| <= 9
    ensures !Fills(i) ==> InsightRecommendations(i) == []
    ensures Fills(i) ==>
      |AreasOf(i)| <= |InsightRecommendations(i)|
  {
    var areas := AreasOf(i);
    var f := AreaRecommendationsFor(i);
    forall area | area in areas
      ensures |f(area)| <= 3
      ensures !Fills(i) ==> |f(area)| <= 0
      ensures Fills(i) ==> |f(area)| >= 1
    {
      AreaRecommendationsSize(i, area);
    }
    FlatMapAtMost(areas, f, 3);
    if !Fills(i) {
      FlatMapAtMost(areas, f, 0);
    } else {
      FlatMapAtLeast(areas, f, 1);
    }
  }

  /** Every candidate of an insight is consistent with it. */
  lemma InsightRecommendationsConsistent(i: InsightData, r: Recommendation)
    requires r in InsightRecommendations(i)
    ensures Consistent(i, r)
  {
    var f := AreaRecommendationsFor(i);
    FlatMapMember(AreasOf(i), f, r);
    var area :| area in AreasOf(i) && r in f(area);
    var g := CandidateFor(i, area);
    SuccessesMember(Actions(InsightSentiment, area), g, r);
    var a :| a in Actions(InsightSentiment, area) && g(a) == Some(r);
    CandidateSpec(i, area, a);
  }

  /**
   * `_generate_insight_recommendations` as written: the loop over areas and,
   * inside it, the loop over actions that skips a template that fails to fill.
   */
  method GenerateInsightRecommendations(i: InsightData) returns (recs: seq<Recommendation>)
    ensures recs == InsightRecommendations(i)
  {
    var areas := AreasOf(i);
    var perArea := AreaRecommendationsFor(i);
    recs := [];
    for k := 0 to |areas|
      invariant recs == FlatMap(areas[..k], perArea)
    {
      var area := areas[k];
      var actions := GetActions(InsightSentiment, area);
      var fromArea := KeepSuccesses(actions, CandidateFor(i, area));
      recs := recs + fromArea;
      FlatMapStep(areas, k, perArea);
    }
    assert areas[..|areas|] == areas;
  }

  // ------------------------------------------------------------ filtering

  /** `(rec.title.split(':')[0], rec.description[:50])`: the grouping key. */
  function RecommendationKey(r: Recommendation): (string, string) {
    (BeforeChar(r.title, ':'), Take(r.description, 50))
  }

  /** The in-group sort key: the priority rank. */
  function ByPriority(r: Recommendation): (real, real) {
    (PriorityRank(r.priority) as real, 0.0)
  }

  /** The final sort key: priority rank, then effort rank. */
  function ByPriorityEffort(r: Recommendation): (real, real) {
    (PriorityRank(r.priority) as real, EffortRank(r.implementationEffort) as real)
  }

  /** `_filter_recommendations`. */
  function FilterRecommendations(rs: seq<Recommendation>): seq<Recommendation> {
    SortBy(BestPerKey(rs, RecommendationKey, ByPriority), ByPriorityEffort)
  }

  /**
   * The filtered list has one recommendation per key of the input, each
   * taken from the input, and it is ordered by priority and then effort.
   */
  lemma FilterSpec(rs: seq<Recommendation>)
    ensures var out := FilterRecommendations(rs);
      DistinctBy(out, RecommendationKey) && SortedBy(out, ByPriorityEffort) &&
      |out| == |Dedup(MapSeq(rs, RecommendationKey))| &&
      (forall r :: r in out ==> r in rs)
  {
    var b := BestPerKey(rs, RecommendationKey, ByPriority);
    BestPerKeyDistinct(rs, RecommendationKey, ByPriority);
    SortByDistinctBy(b, ByPriorityEffort, RecommendationKey);
    SortBySorted(b, ByPriorityEffort);
    var out := FilterRecommendations(rs);
    forall r | r in out
      ensures r in rs
    {
      assert r in multiset(b);
      var j :| 0 <= j < |b| && b[j] == r;
      BestPerKeyAt(rs, RecommendationKey, ByPriority, j);
    }
    if rs != [] {
      BestPerKeyCovers(rs, RecommendationKey, ByPriority, 0);
    } else {
      assert MapSeq(rs, RecommendationKey) == [];
    }
  }

  /** Every input recommendation is represented by a kept one with its key and no worse a priority. */
  lemma FilterCovers(rs: seq<Recommendation>, p: nat)
    requires p < |rs|
    ensures exists r :: (r in FilterRecommendations(rs) &&
      RecommendationKey(r) == RecommendationKey(rs[p]) && PriorityRank(r.priority) <= PriorityRank(rs[p].priority))
  {
    var b := BestPerKey(rs, RecommendationKey, ByPriority);
    BestPerKeyCovers(rs, RecommendationKey, ByPriority, p);
    var j :| 0 <= j < |b| && RecommendationKey(b[j]) == RecommendationKey(rs[p]);
    BestPerKeyAt(rs, RecommendationKey, ByPriority, j);
    assert KeyLe(ByPriority(b[j]), ByPriority(rs[p]));
    SortByMembers(b, ByPriorityEffort);
    assert b[j] in FilterRecommendations(rs);
  }

  /** `_filter_recommendations` as written: the grouping loop, the per-group pick, the final sort. */
  method FilterRecommendationsLoop(rs: seq<Recommendation>) returns (out: seq<Recommendation>)
    ensures out == FilterRecommendations(rs)
  {
    var groups := Tally(KeyedBy(rs, RecommendationKey));
    var best := BestOfEach(groups, ByPriority);
    out := SortBy(best, ByPriorityEffort);
  }

  // ------------------------------------------------------------ the agent

  /** `generate_recommendations`: no insights give no recommendations. */
  function AllRecommendations(insights: seq<InsightData>): seq<Recommendation> {
    if insights == [] then [] else FilterRecommendations(FlatMap(insights, InsightRecommendations))
  }

  /**
   * The agent's output has distinct keys, is ordered by priority and effort,
   * has at most nine recommendations per insight, and every recommendation
   * is consistent with one of the insights.
   */
  lemma AllRecommendationsSpec(insights: seq<InsightData>)
    ensures var out := AllRecommendations(insights);
      (insights == [] ==> out == []) &&
      DistinctBy(out, RecommendationKey) && SortedBy(out, ByPriorityEffort) &&
      |out| <= 9 * |insights| &&
      (forall r :: r in out ==> exists i :: i in insights && Consistent(i, r))
  {
    var all := FlatMap(insights, InsightRecommendations);
    var out := AllRecommendations(insights);
    if insights != [] {
      FilterSpec(all);
      forall i | i in insights
        ensures |InsightRecommendations(i)| <= 9
      {
        InsightRecommendationsSize(i);
      }
      FlatMapAtMost(insights, InsightRecommendations, 9);
      forall r | r in out
        ensures exists i :: i in insights && Consistent(i, r)
      {
        FlatMapMember(insights, InsightRecommendations, r);
        var i :| i in insights && r in InsightRecommendations(i);
        InsightRecommendationsConsistent(i, r);
      }
    }
  }

  /** `generate_recommendations` as written: the loop over insights, then the filter. */
  method GenerateRecommendations(insights: seq<InsightData>) returns (out: seq<Recommendation>)
    ensures out == AllRecommendations(insights)
  {
    if |insights| == 0 {
      return [];
    }
    var all := [];
    for k := 0 to |insights|
      invariant all == FlatMap(insights[..k], InsightRecommendations)
    {
      var recs := GenerateInsightRecommendations(insights[k]);
      FlatMapStep(insights, k, InsightRecommendations);
      all := all + recs;
    }
    assert insights[..|insights|] == insights;
    out := FilterRecommendationsLoop(all);
  }
}
