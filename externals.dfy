/**
 * What the pipeline takes from outside the model: the clock, the regular
 * expression passes each agent runs over text, and whether the report
 * writers manage to write their files.  The orchestrator and the workflow
 * manager hand the same values to every stage.
 */
module Externals {
  import opened Wrappers
  import Sentiment
  import Categorization

  datatype Externals = Externals(
    /** `datetime.now().isoformat()` when documents are enriched. */
    now: string,
    /** `_basic_text_cleaning`'s regular-expression substitutions. */
    basicClean: string -> string,
    /** The entity patterns' matches in a cleaned text. */
    entityCandidates: string -> seq<string>,
    /** The sentiment agent's pattern, cue, phrase and emotion matches. */
    sentimentMatchers: Sentiment.Matchers,
    /** The categorization agent's keyword-pattern counts and topic captures. */
    categoryMatchers: Categorization.CategoryMatchers,
    /** `datetime.now().isoformat()` when a report is generated. */
    reportTime: string,
    /** `report_<timestamp>`: the report id used when no task id is given. */
    reportFallbackId: string,
    /** The error the HTML writer catches, if it fails. */
    htmlFailure: Option<string>,
    /** The error the JSON writer catches, if it fails. */
    jsonFailure: Option<string>)
}
