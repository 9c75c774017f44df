/**
 * What each analysis stage returns for a batch, as functions of its input
 * and the external passes.  The orchestrator and the workflow manager run
 * the same agents, so both are specified by these.
 */
module Stages {
  import opened Wrappers
  import opened Collections
  import opened Models
  import opened Externals
  import DataCollection
  import DataCleaning
  import Sentiment
  import Categorization

  /** What the analysis stages hand on: cleaned documents, analyses, categorizations, insights, recommendations. */
  datatype StageOutputs = StageOutputs(
    cleaned: seq<CleanedDocument>,
    sentiments: seq<SentimentAnalysis>,
    categories: seq<CategoryResult>,
    insights: seq<InsightData>,
    recommendations: seq<Recommendation>)

  /** `validate_and_enrich`'s result: the documents that pass validation, in order. */
  function ValidatedOf(documents: seq<FeedbackDocument>): seq<FeedbackDocument> {
    Filter(documents, DataCollection.ValidateDocument)
  }

  /** `clean_documents`'s result: one cleaned document per document, in order. */
  function CleanedAll(documents: seq<FeedbackDocument>, ext: Externals): seq<CleanedDocument> {
    MapSeq(documents, (d: FeedbackDocument) => DataCleaning.CleanedOf(d, ext.basicClean, ext.entityCandidates))
  }

  /** `analyze_sentiment`'s result: the analyses that pass validation, in order. */
  function SentimentsOf(cleaned: seq<CleanedDocument>, ext: Externals): seq<SentimentAnalysis> {
    Successes(cleaned, (d: CleanedDocument) => Sentiment.AnalysisOf(d, ext.sentimentMatchers))
  }

  /** `categorize_feedback`'s result: one categorization per document, in order. */
  function CategoriesOf(cleaned: seq<CleanedDocument>, ext: Externals): seq<CategoryResult> {
    MapSeq(cleaned, (d: CleanedDocument) => Categorization.CategoryOf(d, ext.categoryMatchers))
  }

  /** Every categorization's confidences lie in [0, 1]. */
  lemma CategoriesOfUnit(cleaned: seq<CleanedDocument>, ext: Externals)
    ensures forall c, k :: c in CategoriesOf(cleaned, ext) && k in c.categoryConfidence ==>
      0.0 <= c.categoryConfidence[k] <= 1.0
  {
    var categories := CategoriesOf(cleaned, ext);
    forall c, k | c in categories && k in c.categoryConfidence
      ensures 0.0 <= c.categoryConfidence[k] <= 1.0
    {
      var i :| 0 <= i < |categories| && categories[i] == c;
      Categorization.CategoryOfSpec(cleaned[i], ext.categoryMatchers);
    }
  }

  /** Every cleaned document's quality score lies in [0, 1]. */
  lemma CleanedAllUnit(documents: seq<FeedbackDocument>, ext: Externals)
    ensures forall d :: d in CleanedAll(documents, ext) ==> 0.0 <= d.qualityScore <= 1.0
  {
    var cleaned := CleanedAll(documents, ext);
    forall d | d in cleaned
      ensures 0.0 <= d.qualityScore <= 1.0
    {
      var i :| 0 <= i < |cleaned| && cleaned[i] == d;
      DataCleaning.QualityScoreBounds(d.cleanedContent, documents[i].content);
    }
  }
}
