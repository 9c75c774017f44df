# Feedback analysis pipeline — a Dafny model

This project models the core of a feedback-management system. The system takes a batch of written feedback documents (expert reports, surveys, interviews and so on) and passes it through seven agents in a fixed order:

1. **data collection** validates each document, detects its source and language, and enriches its metadata;
2. **data cleaning** de-duplicates sentences, scores the text's quality, flags the language and extracts entities;
3. **sentiment analysis** combines a lexicon scorer, weighted phrase patterns and per-sentence cues into a sentiment class and a confidence;
4. **categorization** scores category patterns and keeps the categories whose share reaches the threshold, with keywords and topics;
5. **insight generation** mines the three per-document result lists for trends, patterns, anomalies, correlations, frequent issues, success stories and so on;
6. **recommendation** turns each insight into template-filled recommendations and keeps the best one of each group;
7. **report generation** assembles the report data and summary statistics and hands them to the file writers.

Two drivers run these agents:

- the **master orchestrator** keeps its agents by name, records each task it hands out, and computes a batch's summary statistics;
- the **workflow manager** turns raw input into documents, runs the stages, stops at the first stage that fails, and keeps its status, processing counters and each stage's results.

The layout follows the source: one module per source file (`Models`, `DataCollection`, `DataCleaning`, `Sentiment`, `Categorization`, `Insights`, `Recommendations`, `Report`, `Orchestrator`, `Workflow`). Small helper modules sit beside them:

- `Wrappers`: `Option` and `Result`;
- `Text`, `Arith` and `Collections`: the Python built-ins the agents lean on, such as string methods, `round`, `Counter.most_common`, `dict(pairs)` and stable sorting;
- `Language`: the shared stop-word language test;
- `BatchEnrichment`: the in-place enrichment loop;
- `Stages`: the per-document stages applied over a batch;
- `Externals`: what the pipeline takes from outside.

Code that works step by step is modelled as methods with loop invariants: the enrichment loop, sentence de-duplication, the counting loops and the two drivers' state updates. Each method is proved equal to a function, and the properties are proved as lemmas about those functions. The orchestrator and the workflow manager are classes whose fields their methods update.

Some things come from outside the model and are parameters (`Externals`):

- the clock and the timestamps;
- the regular-expression passes: text cleaning, entity finders, sentiment and category patterns, and topic captures;
- whether the HTML and JSON writers succeed.

The tokenisers that are plain regular expressions (`\b\w+\b`, `[.!?]+`, `str.split()`) are modelled concretely.

## Model

| member | source | states |
|---|---|---|
| Models.ParseFeedbackSource | models/feedback_models.py:10-17 | a string is accepted as a source exactly when it is one of the seven enum values, and the parsed member prints back as that string |
| Models.AllCategoriesComplete | models/feedback_models.py:27-36 | the category enum has exactly eight members, every category is among them, their string values are pairwise different and `other` comes last |
| Models.FeedbackDocument.constructor | models/feedback_models.py:45-53 | a new document holds exactly the identifier, filename, content, content type, source and metadata it was given |
| Models.DefaultCleanedDocument | models/feedback_models.py:58-66 | a cleaned document built from its two required fields gets language "en", word count 0, quality 0.0 and empty entity and note lists |
| Models.MakeSentimentAnalysis | models/feedback_models.py:68-76 | validation succeeds exactly when the score lies in [-1, 1] and the confidence in [0, 1], and then every field is kept as given |
| Models.DefaultInsight | models/feedback_models.py:87-95 | an insight built from its two required fields has frequency 1, severity "medium", no trend and empty evidence and area lists |
| Models.DefaultRecommendation | models/feedback_models.py:97-108 | a recommendation built from its three required fields has medium priority, effort and impact, a short-term timeline and empty lists |
| Models.NewAgentTask | models/feedback_models.py:136-147 | a new task is pending, with no result and no error message, and holds the identifier, agent name and task type it was given |
| Language.IndicatorLanguage | agents/data_collection.py:178-201 | the flag is "en" or "unknown", and "unknown" when there are no words |
| Language.IndicatorLanguageRatio | agents/data_cleaning.py:275-293 | on a non-empty word list the flag is "en" exactly when the share of indicator words exceeds the threshold (0.1 for collection, 0.05 for cleaning) |
| BatchEnrichment.EnrichWhere | agents/data_collection.py:34-59 | the loop returns exactly the accepted documents in input order, each accepted one carries its new source and its old metadata plus the enrichment, and every rejected one is left untouched |
| DataCollection.AlnumCount | agents/data_collection.py:93 | the count of alphanumeric characters never exceeds the text's length |
| DataCollection.IsValidTextRatio | agents/data_collection.py:85-97 | a text is valid exactly when its stripped form is non-empty and its alphanumeric share is not below 0.1 |
| DataCollection.ValidateDocumentSpec | agents/data_collection.py:61-83 | a document passes exactly when its content length lies in [10, 1000000], its text is valid and its filename is not blank |
| DataCollection.ValidDocumentHasAlnum | agents/data_collection.py:61-97 | a validated document holds at least one letter or digit, and at least a tenth of its stripped text is alphanumeric |
| DataCollection.FirstMatch | agents/data_collection.py:128-150 | the chosen rule matches and no earlier rule does; when none is chosen, no rule matches |
| DataCollection.DetectSourceType | agents/data_collection.py:122-152 | an `expert`/`specialist`/`review` filename gives an expert report, content rules apply only when no filename rule matches, and the result is `other` exactly when no rule of either chain matches |
| DataCollection.DetectSourceFirstMatchWins | agents/data_collection.py:128-140 | when filename rule `i` is the first to match, its source is the result whatever the content |
| DataCollection.DetectSourceContentFirstMatchWins | agents/data_collection.py:142-152 | when no filename rule matches and content rule `i` is the first to match, its source is the result |
| DataCollection.MaxOne | agents/data_collection.py:168 | `max(n, 1)` is at least 1 and equals `n` when `n` is positive |
| DataCollection.BasicStatsBounds | agents/data_collection.py:154-176 | the unique-word count is at most the word count, the average sentence length is words over at least one sentence, and the vocabulary richness lies in [0, 1] and is positive exactly when there is a word |
| DataCollection.DetectLanguage | agents/data_collection.py:178-201 | the collection stage's language flag is "en" or "unknown" |
| DataCollection.DetectLanguageRatio | agents/data_collection.py:178-201 | no words gives "unknown"; otherwise "en" exactly when more than a tenth of the words are common English words |
| DataCollection.GetContentType | agents/data_collection.py:251-262 | an unknown extension maps to "text/plain", and every answer is one of the table's content types |
| DataCollection.ContentTypeIgnoresCase | agents/data_collection.py:251-262 | the content type does not depend on the extension's letter case |
| DataCollection.BasicEntries | agents/data_collection.py:106-112 | the first metadata batch records the character count and the whitespace word count of the content |
| DataCollection.EnrichmentMetadata | agents/data_collection.py:106-118 | the merged enrichment ends with the detected language of the content |
| DataCollection.EnrichmentKeepsCallerEntries | agents/data_collection.py:106-118 | merging adds keys and never removes one, and every caller entry the enrichment does not name survives unchanged |
| DataCollection.EnrichDocument | agents/data_collection.py:99-120 | the document's source becomes the detected one and its metadata becomes the old metadata overridden by the enrichment entries |
| DataCollection.ValidateAndEnrich | agents/data_collection.py:34-59 | the result is the validating documents in input order; each of them is enriched in place, and each rejected document keeps its source and metadata |
| DataCleaning.KeepUnique | agents/data_cleaning.py:139-145 | every kept sentence is longer than ten characters and comes from the input, no two kept sentences are equal ignoring case, and the kept lower-cased forms are exactly those of the input's long sentences |
| DataCleaning.KeepUniqueIsFirstLongs | agents/data_cleaning.py:139-145 | the de-duplication loop keeps exactly the first long occurrence of each sentence, in input order (reference definition `FirstLongs`) |
| DataCleaning.KeepUniqueFixed | agents/data_cleaning.py:139-145 | a list of long sentences that are distinct ignoring case passes through the loop unchanged |
| DataCleaning.Render | agents/data_cleaning.py:147 | the joined text is never empty and always ends with '.' |
| DataCleaning.RemoveDuplicates | agents/data_cleaning.py:130-147 | the loop returns `Deduplicated(content)`, a text ending with '.' |
| DataCleaning.SentencesOfRender | agents/data_cleaning.py:133-147 | joining clean sentences with '. ' plus a final '.' and splitting the result again gives back the same sentences |
| DataCleaning.RemoveDuplicatesIdempotent | agents/data_cleaning.py:130-147 | de-duplicating a de-duplicated text returns it unchanged |
| DataCleaning.DeduplicatedSentences | agents/data_cleaning.py:130-147 | the output ends with '.', and its sentences are long input sentences, distinct ignoring case, covering every long input sentence |
| DataCleaning.LengthPart | agents/data_cleaning.py:228-233 | the length part lies in [0, 0.2] |
| DataCleaning.LengthPartRatio | agents/data_cleaning.py:228-233 | the length part is 0.2 for a ratio in [0.7, 1], 0.1 for [0.5, 0.7) and 0 otherwise |
| DataCleaning.StructureBand | agents/data_cleaning.py:235-245 | the structure part lies in [0, 0.3] and is positive exactly when some fragment counts |
| DataCleaning.StructureBandRatio | agents/data_cleaning.py:238-245 | the structure part is 0.3 for an average in [5, 30], 0.2 for [3, 5) or (30, 50] and 0.1 otherwise |
| DataCleaning.DiversityBand | agents/data_cleaning.py:247-257 | the diversity part lies in [0, 0.2] and is positive exactly when there is a word |
| DataCleaning.DiversityBandRatio | agents/data_cleaning.py:249-257 | the diversity part is 0.2 above a ratio of 0.5, 0.15 above 0.3 and 0.1 otherwise |
| DataCleaning.PunctuationPart | agents/data_cleaning.py:259-263 | the punctuation part lies in [0, 0.15] |
| DataCleaning.CoherencePart | agents/data_cleaning.py:265-271 | the coherence part lies in [0.05, 0.15] |
| DataCleaning.QualityScoreOfParts | agents/data_cleaning.py:220-273 | for non-empty texts the score is the sum of the five parts, capped at 1 |
| DataCleaning.CalculateQualityScore | agents/data_cleaning.py:220-273 | the accumulating method computes `QualityScore` |
| DataCleaning.QualityScoreBounds | agents/data_cleaning.py:220-273 | the score is 0 when either text is empty and otherwise lies in [0.05, 1] and equals the uncapped sum of the parts |
| DataCleaning.CleaningLanguage | agents/data_cleaning.py:275-293 | the cleaning stage's language flag is "en" or "unknown" |
| DataCleaning.CleaningLanguageRatio | agents/data_cleaning.py:275-293 | no words gives "unknown"; otherwise "en" exactly when more than 5% of the words are indicator words |
| DataCleaning.ExtractEntitiesSpec | agents/data_cleaning.py:169-193 | entities are distinct, at most fifty, each a candidate longer than two characters and not a stop word; when at most fifty distinct candidates survive, every surviving candidate is kept |
| DataCleaning.CleanSingleDocument | agents/data_cleaning.py:64-105 | the cleaned document carries `doc.id or doc.filename`, the de-duplicated basic-cleaned text, its entities, language, whitespace word count, quality score against the original and the notes in order |
| DataCleaning.CleanedOfFields | agents/data_cleaning.py:97-105 | a document with all seven of those fields is the document `CleanedOf` describes |
| DataCleaning.CleaningNotesRecord | agents/data_cleaning.py:72-85 | the basic-cleaning note is present exactly when the length changed, the de-duplication note always is, and the entity-count note comes last |
| DataCleaning.CleanOne | agents/data_cleaning.py:64-105 | cleaning one document yields the value `CleanedOf` describes |
| DataCleaning.CleanDocuments | agents/data_cleaning.py:42-62 | one cleaned document per input document, in input order |
| Sentiment.IntensifierFactors | agents/sentiment_analysis.py:57-62 | every intensity factor of the agent lies in [0.4, 2] |
| Sentiment.NegatorNotIntensifier | agents/sentiment_analysis.py:57-63 | no negator is also an intensifier, so a word is never both negated and intensified |
| Sentiment.AgentLexiconValid | agents/sentiment_analysis.py:23-63 | the agent's word lists, intensifiers and negators satisfy the lexicon invariant the scorers rely on |
| Sentiment.ExampleTokens | agents/sentiment_analysis.py:27-63 | "extremely" is an intensifier of factor 2 and in no word list, and "good" is a positive word |
| Sentiment.PolarityOf | agents/sentiment_analysis.py:169-181 | a word is positive exactly when it is in the positive list, negative exactly when it is in the negative list and not the positive one, neutral exactly when only in the neutral list |
| Sentiment.Intensity | agents/sentiment_analysis.py:164-166 | the factor applied to a word lies in (0, 2] |
| Sentiment.Signed | agents/sentiment_analysis.py:158-178 | the signed weight of one word lies in [-2, 2] |
| Sentiment.LexiconAnalysis | agents/sentiment_analysis.py:142-194 | the word-by-word loop returns `LexiconResult`, the score and confidence of the final counters |
| Sentiment.TallyBounds | agents/sentiment_analysis.py:149-183 | the positive and negative counters are non-negative, together at most twice the number of hits, and the hits at most the words seen |
| Sentiment.LexiconBounds | agents/sentiment_analysis.py:142-194 | the lexicon score lies in [-2, 2] and the confidence in [0, 1]; no hits give (0, 0) |
| Sentiment.LexiconNotClamped | agents/sentiment_analysis.py:188-194 | "extremely good" scores exactly 2.0 with confidence 0.5: the lexicon score is not kept within [-1, 1] |
| Sentiment.NegationFlips | agents/sentiment_analysis.py:158-178 | a polar word right after a negator counts -1 when positive and +1 when negative |
| Sentiment.IntensifierScales | agents/sentiment_analysis.py:163-178 | a polar word right after an intensifier counts the intensifier's factor, with the word's sign |
| Sentiment.Clamp | agents/sentiment_analysis.py:248 | the clamped value lies in [-1, 1] and is the input itself when that already does |
| Sentiment.PatternAnalysis | agents/sentiment_analysis.py:196-248 | the pattern loops return `PatternResult` of the total positive, negative and neutral match counts |
| Sentiment.PatternBounds | agents/sentiment_analysis.py:196-248 | no matches give (0, 0); otherwise the score is 0.8 times (positive - negative) over all matches, in [-0.8, 0.8], and the confidence is positive and reaches 1 exactly at ten matches |
| Sentiment.ScoreSentence | agents/sentiment_analysis.py:262-290 | adding the cue adjustments one at a time gives `SentenceScore` |
| Sentiment.ContextScores | agents/sentiment_analysis.py:255-292 | no more sentence scores than fragments looked at |
| Sentiment.ContextAnalysis | agents/sentiment_analysis.py:250-301 | the loop over the fragments of `re.split(r'[.!?]+', content)` returns the context result of their sentence scores |
| Sentiment.QuestionPenaltyNeverApplies | agents/sentiment_analysis.py:253-266 | the fragments of that split hold no '?', so the question penalty is never applied |
| Sentiment.SentenceScoreBounds | agents/sentiment_analysis.py:262-290 | a sentence without the question cue scores between -0.7 and 0.6 |
| Sentiment.ContextScoresBounds | agents/sentiment_analysis.py:255-292 | every sentence score of fragments without terminators lies in [-0.7, 0.6] |
| Sentiment.ContextResultBounds | agents/sentiment_analysis.py:294-301 | scores in [-0.7, 0.6] average to a score in that range, never clamped; no scores give (0, 0) |
| Sentiment.ContextBounds | agents/sentiment_analysis.py:250-301 | the context score is the mean sentence score, in [-0.7, 0.6], with a confidence in [0, 1]; no sentence of five or more characters gives (0, 0) |
| Sentiment.CombineBounds | agents/sentiment_analysis.py:106-113 | on the scorers' ranges the combined confidence lies in [0, 1] and the combined score in [-1.25, 1.22] |
| Sentiment.Round3 | agents/sentiment_analysis.py:135-136 | the rounded value lies within half a thousandth of the input |
| Sentiment.Round3Range | agents/sentiment_analysis.py:135-136 | rounding keeps a value of [-1, 1] in [-1, 1] and one of [0, 1] in [0, 1] |
| Sentiment.ScoreToSentimentType | agents/sentiment_analysis.py:303-313 | positive exactly above 0.1, negative exactly below -0.1, neutral exactly in between, never mixed |
| Sentiment.KeyPhrases | agents/sentiment_analysis.py:315-336 | at most 20 distinct phrases, each one of the matches; all matches are kept when there are at most 20 distinct ones |
| Sentiment.EmotionalIndicators | agents/sentiment_analysis.py:338-359 | the distinct matches, each match kept exactly once |
| Sentiment.AnalysisFromSpec | agents/sentiment_analysis.py:92-140 | a result exists exactly when the rounded combined score lies in [-1, 1]; it then carries the document's id, the class of the unrounded score (never mixed), both rounded values, at most 20 distinct key phrases and distinct indicators |
| Sentiment.ScorersInRange | agents/sentiment_analysis.py:97-104 | the three scorers always return scores and confidences within the ranges the combination step assumes |
| Sentiment.AnalysisOfSpec | agents/sentiment_analysis.py:92-140 | a document is analysed exactly when its rounded combined score lies in [-1, 1], and its result then carries its id and the class of its score |
| Sentiment.DroppedWitness | agents/sentiment_analysis.py:92-140 | a lexicon score of 2.0, one positive pattern match and a neutral context combine to 1.04, which the model's validation rejects, so the document is dropped |
| Sentiment.AnalyzeSingleDocument | agents/sentiment_analysis.py:92-140 | running the scorers, combining, classifying and validating yields `AnalysisOf` |
| Sentiment.AnalyzeSentiment | agents/sentiment_analysis.py:70-90 | the results of exactly the documents that validate, in input order |
| Categorization.PatternCategoriesDistinct | agents/categorization.py:28-98 | the seven pattern categories are pairwise different and `other` is not among them |
| Categorization.Weights | agents/categorization.py:28-98 | each pattern category has five pattern weights, each in [0.5, 0.9], and `other` has none |
| Categorization.WeightedSum | agents/categorization.py:174-177 | a category's accumulated score is never negative |
| Categorization.WeightedSumZero | agents/categorization.py:174-177 | a category scores 0 exactly when none of its patterns matches |
| Categorization.RawScores | agents/categorization.py:171-177 | one non-negative score per pattern category, in the table's order |
| Categorization.RawScoresZero | agents/categorization.py:174-177 | category `i` scores 0 exactly when each of its five patterns has no match |
| Categorization.MaxOf | agents/categorization.py:180 | the maximum is at least every score and is one of them |
| Categorization.Min1 | agents/categorization.py:183 | `min(x, 1.0)` is at most 1 and at most `x`, and is one of the two |
| Categorization.NormaliseDivides | agents/categorization.py:179-183 | with a positive top score every score is divided by it, keeping its category, into [0, 1] |
| Categorization.NormaliseRange | agents/categorization.py:179-185 | normalising keeps the categories and their order, puts every score in [0, 1], gives some category exactly 1 when any score is positive and leaves all-zero scores alone |
| Categorization.NormaliseOrder | agents/categorization.py:179-183 | normalising keeps the order between any two scores |
| Categorization.ScoreCategory | agents/categorization.py:174-177 | the pattern loop for one category computes `CategoryScore` |
| Categorization.AccumulateScores | agents/categorization.py:171-177 | the loop over all categories computes `RawScores` |
| Categorization.HighestScore | agents/categorization.py:180 | the loop finds `TopScore`, the largest raw score |
| Categorization.RuleBasedCategorization | agents/categorization.py:168-185 | the method returns the normalised raw scores |
| Categorization.SharesSum | agents/categorization.py:280-285 | dividing each score by a positive total divides their sum by it |
| Categorization.SortedScores | agents/categorization.py:271-275 | sorting by score keeps exactly the same pairs, with distinct keys, in non-increasing score order |
| Categorization.DetermineCategoriesKeys | agents/categorization.py:261-287 | the share dict names exactly the scored categories, each once |
| Categorization.DetermineCategoriesShares | agents/categorization.py:280-287 | every share lies in [0, 1], the shares sum to 1 unless all are 0, and they come in non-increasing order |
| Categorization.DetermineCategoriesPrimary | agents/categorization.py:277-278 | the first result is a category with the maximum score when that is positive, and `other` when it is 0 |
| Categorization.AtMostThreePass | agents/categorization.py:142-146 | shares that sum to at most 1 let at most three categories reach the 0.3 threshold |
| Categorization.RankedMembers | agents/categorization.py:142-153 | the filtered, sorted list holds exactly the passing pairs, with distinct keys, best first |
| Categorization.RankedFacts | agents/categorization.py:142-163 | on the shares at most three pairs pass, so `[:5]` keeps them all |
| Categorization.RankedMapCovers | agents/categorization.py:163 | every passing share is in the dict built from the ranked pairs, under its own category |
| Categorization.RankedMapSound | agents/categorization.py:163 | every dict entry is a passing share of its category |
| Categorization.SelectConfidence | agents/categorization.py:142-163 | the confidence dict holds exactly the categories whose share reaches 0.3, each with its share |
| Categorization.RankedFirstIsBest | agents/categorization.py:149-156 | the first ranked pair has a share at least that of every category |
| Categorization.SelectNone | agents/categorization.py:142-163 | with no share reaching 0.3 the primary is `other`, with no secondaries and an empty dict |
| Categorization.SelectBest | agents/categorization.py:149-163 | when some share passes, the primary is in the dict and its share is the largest of all |
| Categorization.SecondariesDistinct | agents/categorization.py:157 | `sorted_categories[1:3]` names at most two different categories, the ones ranked second and third, never the first |
| Categorization.SecondariesInMap | agents/categorization.py:157-163 | the secondaries are in the dict with their ranked shares, passing, no larger than the primary's and in non-increasing order |
| Categorization.SelectSecondaries | agents/categorization.py:142-163 | at most two secondaries, distinct, never the primary, each in the dict with a passing share no larger than the primary's, the first no smaller than the second |
| Categorization.SelectCovers | agents/categorization.py:142-163 | the dict has at most three entries, each the primary or a secondary: the secondaries are all the passing categories after the best one |
| Categorization.RankedCovers | agents/categorization.py:156-163 | a ranked list of at most three pairs has each key either first or among `[1:3]` |
| Categorization.KeywordCandidates | agents/categorization.py:228-254 | every counted word is outside the common-word set and longer than two characters |
| Categorization.KeywordsSpec | agents/categorization.py:224-259 | at most 20 distinct keywords, each a counted lowercase word, by non-increasing count; a word left out occurs no more often than any kept one, and then 20 are kept |
| Categorization.TrimNonWord | agents/categorization.py:209 | the trimmed topic is no longer and starts and ends with a word character unless empty |
| Categorization.Candidates | agents/categorization.py:192-203 | every collected topic is non-empty with at most five words, and there are no more topics than matches |
| Categorization.CandidatesStep | agents/categorization.py:192-203 | one more match appends its stripped form exactly when it is kept |
| Categorization.CleanedPairs | agents/categorization.py:207-213 | every cleaned topic that is kept has at least three characters |
| Categorization.CleanedPairsStep | agents/categorization.py:207-213 | one more candidate appends its cleaned form exactly when that is scored |
| Categorization.AddScore | agents/categorization.py:213 | `topic_scores[t] += c` adds `t` as a new last key only when it is not yet a key |
| Categorization.AccumulateAppend | agents/categorization.py:206-213 | accumulating one more pair is adding its score to the earlier totals |
| Categorization.TotalForAbsent | agents/categorization.py:206-213 | a topic that never occurs totals 0 |
| Categorization.AccumulateKeys | agents/categorization.py:206-213 | the dict's keys are the topics in first-occurrence order |
| Categorization.AccumulateValues | agents/categorization.py:206-213 | each topic's value is the total of its confidences |
| Categorization.AccumulatedDistinct | agents/categorization.py:206-213 | the dict has distinct keys |
| Categorization.AccumulatedEntries | agents/categorization.py:206-213 | every entry is an occurring topic with its total, and every occurring topic is a key |
| Categorization.RankTopicsSpec | agents/categorization.py:215-222 | the ranked topics are distinct, exactly the occurring ones, by non-increasing total |
| Categorization.RankedKeysDistinct | agents/categorization.py:216-222 | sorting a dict with distinct keys gives distinct topics |
| Categorization.RankedKeysMembers | agents/categorization.py:216-222 | the ranked topics are exactly the dict's keys |
| Categorization.RankedKeysOrder | agents/categorization.py:216-222 | the ranked topics come in non-increasing total order |
| Categorization.TopicsSpec | agents/categorization.py:187-222 | the topics are distinct, each of at least three characters, exactly the cleaned candidates, by non-increasing total confidence |
| Categorization.CollectCandidates | agents/categorization.py:192-203 | the collecting loop returns `Candidates` |
| Categorization.AccumulateCleanedStep | agents/categorization.py:207-213 | one more candidate adds its cleaned topic's score exactly when that topic is scored |
| Categorization.AccumulateTopics | agents/categorization.py:205-213 | the accumulating loop returns the totals dict |
| Categorization.ExtractTopics | agents/categorization.py:187-222 | the method returns `Topics` |
| Categorization.CategorizeSingleDocument | agents/categorization.py:127-166 | the method returns `CategoryOf`, the value `CategoryOfSpec` describes |
| Categorization.CategorizeFeedback | agents/categorization.py:105-125 | one result per document, in input order |
| Categorization.NormalisedFacts | agents/categorization.py:168-185 | the normalised scores name the seven pattern categories in order, each in [0, 1], keys distinct |
| Categorization.PatternKeysDistinct | agents/categorization.py:28-98 | pairs keyed by the seven pattern categories in order have distinct keys |
| Categorization.SharesOfKeys | agents/categorization.py:133-140 | the shares name the seven pattern categories, each once |
| Categorization.SharesOfRange | agents/categorization.py:133-140 | the shares lie in [0, 1] and sum to 1, or are all 0 |
| Categorization.CategoryOfSpec | agents/categorization.py:127-166 | the result carries the document's id; the dict holds exactly the pattern categories whose share reaches 0.3, with that share, at most three; the primary is `other` or the best of them; the secondaries are the others, distinct, in non-increasing share order; at most 20 keywords and 10 topics |
| Categorization.NoMatchesGiveOther | agents/categorization.py:127-166 | a document that matches no pattern is `other`, with no secondaries and an empty dict |
| Insights.RatioAboveFraction | agents/insight_generation.py:175-222 | a count ratio exceeds a threshold `p / q` exactly when `q * a > p * n`, which is how every ratio test is decided |
| Insights.RatioAtLeastFraction | agents/insight_generation.py:281 | a count ratio reaches a threshold `p / q` exactly when `q * a >= p * n` |
| Insights.PercentFloor | agents/insight_generation.py:187 | `int(ratio * 100)` on the exact ratio is the integer quotient `100 * a / n` |
| Insights.NegativeDominanceSpec | agents/insight_generation.py:179-191 | the batch insight appears exactly when more than half of the analysed items are negative; it is a `sentiment_shift` over every primary category, its frequency the truncated percentage, between 50 and 100 |
| Insights.NegativeDominanceGrade | agents/insight_generation.py:188-189 | its severity is `high` exactly when more than 60% are negative, otherwise `medium`, and its trend is `increasing` |
| Insights.SuccessStorySpec | agents/insight_generation.py:193-205 | the `success_story` appears exactly when more than 60% are positive, with the truncated percentage as frequency, between 60 and 100 |
| Insights.SuccessStoryGrade | agents/insight_generation.py:202-203 | a success story has severity `low` and trend `increasing` |
| Insights.BatchRulesExclusive | agents/insight_generation.py:179-205 | the negative-dominance and success-story insights never both appear |
| Insights.TrimZeros | agents/insight_generation.py:217-228 | trimming trailing zeros keeps a prefix of the text |
| Insights.StrongSentimentSpec | agents/insight_generation.py:220-234 | a category insight for sentiment `s` appears exactly when `s` has more than 60% of the category's items; it is one `sentiment_shift` whose frequency is the count, whose area is the category, and whose two evidence lines are the count and the sentiment distribution |
| Insights.StrongSentimentGrade | agents/insight_generation.py:231-232 | its severity is `high` exactly above 70% and its trend is `increasing` |
| Insights.StrongUnique | agents/insight_generation.py:220-222 | no two different sentiments can both hold more than 60% of a category |
| Insights.StrongFlat | agents/insight_generation.py:220-234 | over the distinct sentiments of a category the loop yields at most one insight, exactly when one of them is strong, and it is that sentiment's insight |
| Insights.CategoryStrongSpec | agents/insight_generation.py:214-234 | a category yields at most one insight, exactly when it has at least three items and a strong sentiment, and then the insight for that sentiment |
| Insights.SentimentInsightsLoop | agents/insight_generation.py:158-236 | the loops return `SentimentInsights`: the batch rules, then the per-category rule in category order |
| Insights.TopCategoryTrendSpec | agents/insight_generation.py:250-278 | the `trend` appears exactly when the most frequent primary category holds more than 30% of the items; its area is that category and its frequency that category's count, no smaller than any other's |
| Insights.TopCategoryTrendGrade | agents/insight_generation.py:274-275 | its severity is `medium` and its trend is `increasing` exactly above 40% |
| Insights.CategorySpreadSpec | agents/insight_generation.py:280-295 | the `pattern` insight appears exactly when at least three categories each hold at least 10% of the items; its frequency counts them and its areas are all categories seen |
| Insights.MajorShare | agents/insight_generation.py:281 | a category counted by the spread rule holds at least a tenth of the items |
| Insights.MeanBounds | agents/insight_generation.py:305-306 | comparing a mean with a threshold is comparing the sum with the threshold times the count |
| Insights.AverageSentimentFires | agents/insight_generation.py:303-321 | a category yields at most one average-sentiment insight, exactly when it has at least three scores whose mean is at least 0.3 in absolute value |
| Insights.AverageSentimentFields | agents/insight_generation.py:307-321 | that insight is a `sentiment_shift` over the category with the number of scores as frequency, `high` exactly when the mean exceeds 0.5 in absolute value |
| Insights.CategoryInsightsLoop | agents/insight_generation.py:238-321 | the loops return `CategoryInsights` |
| Insights.ScoreGroupsJoin | agents/insight_generation.py:297-301 | a document is grouped exactly when it has both a sentiment and a category result, once, so the groups hold one score per such document |
| Insights.WeekCount | agents/insight_generation.py:352 | `int(n * 0.4)` is the whole number `w` with `5w <= 2n < 5w + 5` |
| Insights.VolumeTrendSpec | agents/insight_generation.py:350-370 | the volume `trend` appears exactly when there are documents and `3w > n + 1`, with frequency `w`, severity `medium` and trend `increasing` |
| Insights.IssueIds | agents/insight_generation.py:397-400 | the collected ids are exactly those of documents mentioning an issue indicator |
| Insights.IssueCategories | agents/insight_generation.py:403 | the issue categories are non-empty exactly when some issue document has a category result |
| Insights.FrequentIssueSpec | agents/insight_generation.py:402-419 | the `frequent_issue` insight appears exactly when at least three documents mention issues and one of them is categorised; its frequency is their number, it is `high` exactly above ten, and its one to three areas start with the most common issue category |
| Insights.SomeShort | agents/insight_generation.py:421-433 | when the mean length is below 50 words, at least one document is shorter than 50 words |
| Insights.ShortFeedbackSpec | agents/insight_generation.py:421-437 | the `feedback_quality` insight appears exactly when the mean word count is below 50, and its frequency counts the short documents, at least one |
| Insights.CollectIssueIds | agents/insight_generation.py:397-400 | the collecting loop returns `IssueIds` |
| Insights.ContentInsightsLoop | agents/insight_generation.py:374-439 | the method returns `ContentInsights` |
| Insights.NegativeEntriesStep | agents/insight_generation.py:461-466 | one more category appends its entry |
| Insights.NegativeEntriesSound | agents/insight_generation.py:461-466 | every entry is a category with at least three scores, its mean below -0.3 and its count |
| Insights.NegativeEntriesDistinct | agents/insight_generation.py:461-466 | the entries name distinct categories |
| Insights.NegativeEntriesComplete | agents/insight_generation.py:461-466 | every category meeting the rule has an entry |
| Insights.NegativeCategoriesSound | agents/insight_generation.py:459-469 | every sorted entry meets the rule |
| Insights.NegativeCategoriesOrder | agents/insight_generation.py:468-469 | the sorted entries name distinct categories, most negative first |
| Insights.NegativeCategoriesComplete | agents/insight_generation.py:459-469 | every category meeting the rule is among the sorted entries |
| Insights.ImprovementAreasSpec | agents/insight_generation.py:470-483 | at most three `improvement_area` insights, one per entry of the three most negative categories, with the entry's count, trend `decreasing` and `high` exactly below -0.5 |
| Insights.ImprovementAreaFields | agents/insight_generation.py:471-482 | one entry gives one `improvement_area` insight with its count and category, trend `decreasing`, `high` exactly below -0.5 |
| Insights.EmergingTermsSpec | agents/insight_generation.py:487-496 | the emerging terms are distinct and are exactly the words of five or more characters occurring two to five times |
| Insights.CrossCuttingInsightsLoop | agents/insight_generation.py:441-512 | the method returns `CrossCuttingInsights` |
| Insights.FilterUniqueOrder | agents/insight_generation.py:514-538 | the kept insights have distinct group keys and are ordered by severity rank, then by decreasing frequency |
| Insights.FilterUniqueFirst | agents/insight_generation.py:517-527 | one insight is kept per group key, the first of its group |
| Insights.FilterUniqueCovers | agents/insight_generation.py:517-527 | every group key of the input is kept |
| Insights.FilterUniqueInsights | agents/insight_generation.py:514-538 | the method returns `FilterUnique` |
| Insights.InsightsSpec | agents/insight_generation.py:92-156 | no documents, sentiments or categories give no insights; the result has distinct group keys and is in severity order |
| Insights.GenerateInsights | agents/insight_generation.py:92-156 | the method returns `Insights`, the five generators' output filtered for uniqueness |
| Recommendations.KindOf | agents/recommendation.py:245-249 | an insight type with its own template selects that template; any other type falls back to the `trend` template |
| Recommendations.Format | agents/recommendation.py:273-279 | `str.format` succeeds exactly when every placeholder of the template has a parameter |
| Recommendations.TextsUse | agents/recommendation.py:28-136 | parameters covering a template's needed names fill both its title and its description |
| Recommendations.Params | agents/recommendation.py:303-338 | the parameters always name category, trend direction, sentiment, severity, frequency, area and pattern type; the two category names only for a correlation with two areas, the topic only for an emerging topic; the sentiment is "neutral" |
| Recommendations.ActionParamsLevels | agents/recommendation.py:259-271 | the per-action parameters keep the "neutral" sentiment and the insight's trend direction |
| Recommendations.ActionParamsFill | agents/recommendation.py:273-279 | both texts of the chosen template can be formatted exactly when the insight fills it |
| Recommendations.TechnicalActions | agents/recommendation.py:138-176 | each sentiment of the technical-issues table has three actions |
| Recommendations.ProceduralActions | agents/recommendation.py:138-176 | each sentiment of the procedural-inefficiencies table has three actions |
| Recommendations.DefaultActions | agents/recommendation.py:177-193 | `default_actions.get(sentiment, [])` has three actions for a known sentiment and none otherwise |
| Recommendations.ActionsSpec | agents/recommendation.py:340-383 | one to three actions: the category table's when it has some, else the sentiment's defaults, else the generic action |
| Recommendations.Actions | agents/recommendation.py:340-383 | every insight and area gets one to three actions |
| Recommendations.TableActionsFor | agents/recommendation.py:357-372 | only areas naming technical issues or procedural inefficiencies get table actions |
| Recommendations.GetActions | agents/recommendation.py:340-383 | the method returns `Actions` |
| Recommendations.PriorityByKind | agents/recommendation.py:385-401 | a sentiment shift is `medium` (its map is keyed by the "neutral" sentiment), anomalies and frequent issues `high`, success stories and quality `low`, the rest `medium`, and a trend takes its map's entry for the direction |
| Recommendations.EffortByKind | agents/recommendation.py:403-419 | effort per template: `high` for anomalies and frequent issues, `low` for success stories, the direction's level for a trend, otherwise `medium` |
| Recommendations.LevelValues | agents/recommendation.py:385-419 | priority and effort are always `high`, `medium` or `low` |
| Recommendations.TimelineMonotone | agents/recommendation.py:421-431 | the timeline is one of four values, `immediate` exactly for critical or high/high, and never later for a higher priority or for a high effort |
| Recommendations.ResourceNamed | agents/recommendation.py:440-462 | a parsed resource name prints back as the same string |
| Recommendations.ResourceNameRoundTrip | agents/recommendation.py:440-462 | every resource's name parses back to that resource |
| Recommendations.AreaResources | agents/recommendation.py:452-456 | the area adds only technical expertise or the process improvement team |
| Recommendations.ResourceListLevels | agents/recommendation.py:442-450 | a cross-functional team exactly for high or critical priority, development time exactly for high or medium effort, budget exactly for high effort |
| Recommendations.ResourceListAreas | agents/recommendation.py:452-460 | technical expertise exactly for a "technical" area, the process team exactly for "process" or "procedural", standard resources exactly when nothing else applies |
| Recommendations.ResourcesSpec | agents/recommendation.py:433-462 | the resources are non-empty, distinct and exactly the collected ones; standard resources only alone |
| Recommendations.DetermineResources | agents/recommendation.py:433-462 | the method returns the names of `Resources` |
| Recommendations.ResourceNames | agents/recommendation.py:462 | one name per resource, each parsing back to it |
| Recommendations.ResourceNamesDistinct | agents/recommendation.py:462 | distinct resources have distinct names |
| Recommendations.SuccessMetricsSpec | agents/recommendation.py:464-488 | two or three metrics, always the stakeholder metric; for an insight without sentiment the resolution metric too, preceded by the reduction metric for issues and improvement areas and by the replication metric for success stories |
| Recommendations.DetermineSuccessMetrics | agents/recommendation.py:464-488 | the method returns `SuccessMetrics` |
| Recommendations.BuiltConsistent | agents/recommendation.py:286-297 | a built recommendation carries the formatted texts, the priority as impact, the effort, the timeline of the two and the insight type as category and related insight |
| Recommendations.CandidateSpec | agents/recommendation.py:266-299 | an action yields a recommendation exactly when the insight fills the template, and it is consistent with the insight |
| Recommendations.AreasOf | agents/recommendation.py:255-257 | one to three areas: the first three affected areas, or "general" |
| Recommendations.CandidateForSome | agents/recommendation.py:266-299 | every action of an area yields a recommendation exactly when the insight fills the template |
| Recommendations.AreaRecommendationsSize | agents/recommendation.py:257-299 | an area yields at most three recommendations, none when the template cannot be filled and at least one otherwise |
| Recommendations.InsightRecommendationsSize | agents/recommendation.py:237-301 | an insight yields at most nine recommendations, none when the template cannot be filled, otherwise at least one per area |
| Recommendations.InsightRecommendationsConsistent | agents/recommendation.py:237-301 | every recommendation of an insight is consistent with it |
| Recommendations.GenerateInsightRecommendations | agents/recommendation.py:237-301 | the nested loops return `InsightRecommendations` |
| Recommendations.FilterSpec | agents/recommendation.py:490-523 | the filtered recommendations have distinct group keys, one per key of the input, come from the input and are sorted by priority then effort |
| Recommendations.FilterCovers | agents/recommendation.py:496-512 | every input's group keeps a recommendation of at least its priority |
| Recommendations.FilterRecommendationsLoop | agents/recommendation.py:490-523 | the method returns `FilterRecommendations` |
| Recommendations.AllRecommendationsSpec | agents/recommendation.py:200-235 | no insights give none; the output has distinct keys, is sorted by priority then effort, has at most nine per insight and each is consistent with some insight |
| Recommendations.GenerateRecommendations | agents/recommendation.py:200-235 | the method returns `AllRecommendations` |
| Report.PrimaryProbability | agents/report_generation.py:252-263 | a result contributes exactly when its confidence dict is non-empty, holds its primary category and that value lies in [0, 1], and then contributes that value |
| Report.Mean | agents/report_generation.py:238-241 | there is no average exactly when nothing was summed |
| Report.SumRealSnoc | agents/report_generation.py:235 | adding one more confidence adds it to the running total |
| Report.TallySentiments | agents/report_generation.py:226-236 | the loop counts each sentiment class, sums every confidence and counts every result |
| Report.TallyCategories | agents/report_generation.py:243-263 | the loop counts each primary category and sums and counts exactly the contributing probabilities |
| Report.GenerateSummary | agents/report_generation.py:218-300 | the method computes `SummaryOf` |
| Report.SummaryTotals | agents/report_generation.py:218-300 | each distribution's counts add up to the number of items it counts, and the totals equal those numbers |
| Report.LowerIdempotent | agents/report_generation.py:273-279 | lower-casing twice is lower-casing once |
| Report.SummaryKeys | agents/report_generation.py:270-280 | severity and priority keys are lower-case and each counts the items whose lower-cased value it is |
| Report.MeanUnit | agents/report_generation.py:238-241 | the mean of values in [0, 1] lies in [0, 1] |
| Report.SentimentConfidenceAverage | agents/report_generation.py:226-241 | the average confidence is missing exactly when there are no results, and otherwise lies in [0, 1] |
| Report.PrimaryProbabilityAverage | agents/report_generation.py:243-268 | the average probability is missing exactly when no result contributes, and otherwise lies in [0, 1] |
| Report.CleanedPercentageConstant | agents/report_generation.py:282-287 | the cleaned percentage is always 100, since it divides the sentiment count by itself |
| Report.PrefixedInjective | agents/report_generation.py:187 | `prefix + str(a)` determines `a` |
| Report.ReportDataShape | agents/report_generation.py:132-216 | the report data carries the given task id and the three counts, and one entry per sentiment, category, insight and recommendation in order, each with its item's identifying fields |
| Report.ReportIds | agents/report_generation.py:185-214 | the k-th insight is `insight_k` and the k-th recommendation `recommendation_k`, so ids are distinct |
| Report.GeneratedFilesSpec | agents/report_generation.py:97-106 | an html entry exactly for "html" or "all", a json entry exactly for "json" or "all", nothing else; each entry is its written path `<dir>/<task>_report.<ext>` or the writer's error |
| Report.TaskIdOr | agents/report_generation.py:81 | a non-empty task id is kept, otherwise the generated fallback is used |
| Report.ReportAgent.constructor | agents/report_generation.py:27-36 | a new agent is idle and writes under the given directory |
| Report.ReportAgent.WriteReports | agents/report_generation.py:97-106 | the writers produce `GeneratedFiles` for the format |
| Report.ReportAgent.GenerateReport | agents/report_generation.py:55-130 | the agent ends `completed` and returns success with the chosen task id, the prepared report data and the generated files |
| Stages.CategoriesOfUnit | agents/categorization.py:127-166 | every confidence of every categorization lies in [0, 1] |
| Stages.CleanedAllUnit | agents/data_cleaning.py:220-273 | every cleaned document's quality score lies in [0, 1] |
| Orchestrator.StandardAgentsServeAll | main.py:48-56 | the application's registry has, under each step's name, an agent with that step's task method |
| Orchestrator.IntendedReportSucceeds | agents/report_generation.py:55-130 | called with the dict's lists by name, the report task succeeds under the batch id and its counts are those of the documents, insights and recommendations passed |
| Orchestrator.Dispatch | agents/master_orchestrator.py:158-161 | calling the agent's task method with the step's dict gives `TaskOutcome`: each analysis stage's list, and a `TypeError` for the report agent |
| Orchestrator.ValuesOfContains | agents/master_orchestrator.py:205-208 | each value of a confidence dict is among the values `max` looks at |
| Orchestrator.ValuesOfMember | agents/master_orchestrator.py:205-208 | only the dict's values are looked at |
| Orchestrator.ValuesNonEmpty | agents/master_orchestrator.py:206-207 | a non-empty dict has values to take the maximum of |
| Orchestrator.TopConfidenceSpec | agents/master_orchestrator.py:205-208 | a categorization contributes exactly when its dict is non-empty, and it contributes the dict's largest value |
| Orchestrator.AverageConfidenceSpec | agents/master_orchestrator.py:196-211 | the average confidence is the mean of every sentiment confidence and every non-empty dict's maximum, 0.0 when there is none, and lies in [0, 1] |
| Orchestrator.DataQualitySpec | agents/master_orchestrator.py:213-225 | the data quality score is 0 without documents and otherwise the mean quality score, in [0, 1] |
| Orchestrator.DistributionSpec | agents/master_orchestrator.py:180-194 | a distribution has its keys in first-seen order, counts each value once per result and totals the number of results |
| Orchestrator.ProcessingResultCounts | agents/master_orchestrator.py:54-58 | a completed batch counts every input document as processed and none as failed, has one categorization per validated document, no more sentiments than categorizations, and distributions totalling their lists |
| Orchestrator.ProcessingResultScores | agents/master_orchestrator.py:118-123 | a completed batch's average confidence and data quality score lie in [0, 1] |
| Orchestrator.ScoresUnit | agents/master_orchestrator.py:196-225 | confidences and quality scores in [0, 1] give an average confidence and a data quality score in [0, 1] |
| Orchestrator.MasterOrchestrator.constructor | agents/master_orchestrator.py:25-29 | a new orchestrator has no agents and no tasks |
| Orchestrator.MasterOrchestrator.Initialize | agents/master_orchestrator.py:31-33 | the registry becomes the given agents and the record of tasks is unchanged |
| Orchestrator.MasterOrchestrator.StartTask | agents/master_orchestrator.py:144-154 | a task is recorded as processing under `<agent>_<hex>` and nothing else changes |
| Orchestrator.MasterOrchestrator.FinishTask | agents/master_orchestrator.py:164-176 | the recorded task becomes completed with its result or failed with its message, and nothing else changes |
| Orchestrator.MasterOrchestrator.ExecuteAgentTask | agents/master_orchestrator.py:139-178 | an unknown agent is an error and records nothing; otherwise a task is recorded and finished: not supported when the agent lacks the method, else the method's outcome |
| Orchestrator.MasterOrchestrator.DispatchIntended | agents/report_generation.py:55-64 | the corrected call gives `IntendedOutcome`: the report agent receives the lists by name |
| Orchestrator.MasterOrchestrator.ExecuteAgentTaskIntended | agents/master_orchestrator.py:139-178 | the same task bookkeeping and errors, with the corrected report call |
| Orchestrator.MasterOrchestrator.CollectStep | agents/master_orchestrator.py:60-64 | step 1 yields the validated documents and succeeds whenever the registry serves it |
| Orchestrator.MasterOrchestrator.CleanStep | agents/master_orchestrator.py:66-70 | step 2 yields one cleaned document per validated one and succeeds whenever served |
| Orchestrator.MasterOrchestrator.SentimentStep | agents/master_orchestrator.py:72-77 | step 3 yields the analyses that validate and succeeds whenever served |
| Orchestrator.MasterOrchestrator.CategorizeStep | agents/master_orchestrator.py:79-84 | step 4 yields one categorization per cleaned document and succeeds whenever served |
| Orchestrator.MasterOrchestrator.InsightStep | agents/master_orchestrator.py:86-95 | step 5 yields `Insights` of the three lists and succeeds whenever served |
| Orchestrator.MasterOrchestrator.RecommendStep | agents/master_orchestrator.py:97-106 | step 6 yields the recommendations for the insights and succeeds whenever served |
| Orchestrator.MasterOrchestrator.ReportStep | agents/master_orchestrator.py:108-120 | step 7 as written never succeeds; when served, its error is the call's `TypeError` and the report task is recorded as failed |
| Orchestrator.MasterOrchestrator.ReportStepIntended | agents/master_orchestrator.py:108-120 | step 7 with the corrected call yields the report over the batch's lists under the batch id and succeeds whenever served |
| Orchestrator.MasterOrchestrator.RunAnalysisSteps | agents/master_orchestrator.py:60-106 | steps 1 to 6 yield the batch's stage outputs, and all succeed when the registry serves every step |
| Orchestrator.MasterOrchestrator.ProcessFeedbackPipeline | agents/master_orchestrator.py:42-137 | as written the pipeline always ends in an error; with a full registry the error is the report call's `TypeError` and the report task is recorded as failed |
| Orchestrator.MasterOrchestrator.ProcessFeedbackPipelineIntended | agents/master_orchestrator.py:42-137 | with the corrected report call a result is the batch's stage outputs and summary statistics under `batch_<hex>`, and a full registry always gives one |
| Orchestrator.MasterOrchestrator.CalculateSentimentDistribution | agents/master_orchestrator.py:180-186 | the loop counts the results per sentiment value |
| Orchestrator.MasterOrchestrator.CalculateCategoryDistribution | agents/master_orchestrator.py:188-194 | the loop counts the results per primary-category value |
| Orchestrator.MasterOrchestrator.CalculateAverageConfidence | agents/master_orchestrator.py:196-211 | the two loops and the quotient compute `AverageConfidence` |
| Orchestrator.MasterOrchestrator.CalculateDataQualityScore | agents/master_orchestrator.py:213-225 | the loop computes `DataQuality` |
| Workflow.ItemsOf | workflow/workflow_manager.py:205-211 | a single dict becomes a one-item list; a bare string is iterated character by character, each character becoming a `{"content": ch}` item |
| Workflow.Build | models/feedback_models.py:45-53 | a document is built exactly when filename and content are present and any given source names a feedback source; its fields are the given ones |
| Workflow.PreparedBy | workflow/workflow_manager.py:207-221 | the conversion loop keeps at most one document per item |
| Workflow.Prepared | workflow/workflow_manager.py:207-221 | the documents built with the written defaults are at most as many as the items |
| Workflow.PreparedStep | workflow/workflow_manager.py:207-221 | one more item appends at most that item's document, numbered by the documents built so far |
| Workflow.UnsourcedItemsDropped | workflow/workflow_manager.py:215-221 | as written, every item without a source gets the default "api", fails to construct and is dropped, so nothing is built |
| Workflow.PreparedAll | workflow/workflow_manager.py:207-221 | with a valid default source, every buildable item yields exactly its own document, in order |
| Workflow.Listed | workflow/workflow_manager.py:216-218 | an appended construction adds at most one document |
| Workflow.FrontRun | workflow/workflow_manager.py:114-130 | stages 1 to 3 leave the later stages' outputs as they were |
| Workflow.BackRun | workflow/workflow_manager.py:132-153 | stages 4 to 6 leave the cleaned and sentiment outputs as they were |
| Workflow.FrontRunCases | workflow/workflow_manager.py:114-130 | stages 1 to 3 stop at collection when nothing is validated, at sentiment when no analysis validates, and otherwise keep the cleaned and analysed lists with their stage counts |
| Workflow.BackRunCases | workflow/workflow_manager.py:132-153 | stages 4 to 6 keep one categorization per cleaned document, the insights and the recommendations, and stop only when there is no recommendation |
| Workflow.RunHalt | workflow/workflow_manager.py:114-153 | a run stops at collection, sentiment or recommendation exactly in those cases, and otherwise goes through |
| Workflow.RunStopsAt | workflow/workflow_manager.py:114-153 | the cleaning, categorization and insight checks never stop a run |
| Workflow.RunKept | workflow/workflow_manager.py:114-153 | the outputs a run stores are the stage outputs up to where it stopped and the previous ones beyond |
| Workflow.RunStats | workflow/workflow_manager.py:104-111 | a run's counters and per-stage counts are exactly those of the stages it reached |
| Workflow.RunCounters | workflow/workflow_manager.py:180-190 | a run stopped at collection or sentiment counts two errors, one stopped at recommendation counts one, a complete run none; the processed count is the validated count |
| Workflow.UnsourcedBatchFails | workflow/workflow_manager.py:213-225 | as written, a batch whose items all lack a source fails at collection with "No valid documents to process" and two errors |
| Workflow.SentimentCountsTotal | workflow/workflow_manager.py:509-513 | the four sentiment counts add up to the number of analyses |
| Workflow.SummaryCounts | workflow/workflow_manager.py:509-515 | the summary's three sentiment counts cover every analysis exactly when none is mixed, and the distinct category count is between 1 and the number of categorizations |
| Workflow.BuildEach | workflow/workflow_manager.py:207-221 | the loop builds fresh documents matching `PreparedBy` item for item |
| Workflow.NewDocument | models/feedback_models.py:45-53 | a fresh document holds the given fields, the given source and empty metadata |
| Workflow.BuildDocuments | workflow/workflow_manager.py:207-221 | the conversion builds fresh documents matching `Prepared` |
| Workflow.WorkflowManager.constructor | workflow/workflow_manager.py:32-60 | a new manager is idle, has no task, zero counters, no stored outputs and no report |
| Workflow.WorkflowManager.RunDataCollection | workflow/workflow_manager.py:192-250 | the collection phase fails without built or validated documents, and otherwise returns the validated documents with detected sources and records their count |
| Workflow.WorkflowManager.RunDataCleaning | workflow/workflow_manager.py:252-284 | cleaning succeeds exactly when there are documents, stores its output and records its count, else counts an error |
| Workflow.WorkflowManager.RunSentimentAnalysis | workflow/workflow_manager.py:286-325 | the analyses that validate are stored and counted; none, or no input, is an error |
| Workflow.WorkflowManager.RunCategorization | workflow/workflow_manager.py:327-371 | categorization succeeds exactly when there are documents, with one result per document |
| Workflow.WorkflowManager.RunInsightGeneration | workflow/workflow_manager.py:373-418 | insight generation succeeds exactly when all three inputs are non-empty |
| Workflow.WorkflowManager.RunRecommendationGeneration | workflow/workflow_manager.py:420-458 | the recommendations are always stored and counted, success meaning there is at least one |
| Workflow.WorkflowManager.GenerateFinalReport | workflow/workflow_manager.py:460-531 | the stored report holds the run's task id, the writer's files and the summary of the outputs and error count |
| Workflow.WorkflowManager.Start | workflow/workflow_manager.py:103-111 | the run's task id is the given one or `task_<stamp>`, the manager is processing and its counters are reset |
| Workflow.WorkflowManager.Fail | workflow/workflow_manager.py:180-190 | a failure sets the error status, counts one more error and reports the stage and reason |
| Workflow.WorkflowManager.RunFrontStages | workflow/workflow_manager.py:114-130 | stages 1 to 3 change the state as `FrontRun` says |
| Workflow.WorkflowManager.RunBackStages | workflow/workflow_manager.py:132-153 | stages 4 to 6 change the state as `BackRun` says |
| Workflow.WorkflowManager.Complete | workflow/workflow_manager.py:155-190 | a stopped run fails with its stage and reason; a complete one stores and returns the final report and the completed status |
| Workflow.WorkflowManager.RunStages | workflow/workflow_manager.py:114-153 | the six stages change the state as `RunOf` says |
| Workflow.WorkflowManager.Execute | workflow/workflow_manager.py:114-190 | the stored outputs, counters, status, report and result are those of `RunOf` and `FinalStats` |
| Workflow.WorkflowManager.ProcessFeedback | workflow/workflow_manager.py:88-190 | the whole call starts a task and ends with the run's outputs and counters, as a failure at the stopping stage or as a success carrying the final report |
| Workflow.WorkflowManager.ProcessUnsourcedBatch | workflow/workflow_manager.py:213-225 | as written, a batch whose items all lack a source always fails at collection with two errors |

## Left out

Numbers and text:

- NegativeDominance, SuccessStory, NegativeDominanceSpec, SuccessStorySpec, PercentFloor: the insight frequency `int(ratio * 100)` (agents/insight_generation.py:187, 201) is modelled as the exact floor of `100 * n / total`. Python multiplies a binary double, which can land just below the integer and give one less: for 29 of 50 the model says 58 and Python says 57. The same happens for 57/100, 58/100, 87/150, 114/200 and 116/200.
- Round3: `round(x, 3)` (agents/sentiment_analysis.py:135-136) rounds the exact real half up. Python rounds the binary double, and a decimal tie that is exact in binary goes to even. Only the range check that follows depends on it, and `Round3` keeps [-1, 1] and [0, 1] either way.
- Fixed: `f"{x:.1f}"` and the other fixed-point formats (agents/insight_generation.py:182, 196, 225, 268) round the exact value half away from zero. Python formats the nearest binary double, so a value such as 0.25 or 0.35 can print differently.
- FloatText: the `repr` of a ratio inside StrongSentiment's second evidence string is sixteen decimals with trailing zeros trimmed. Python prints the shortest text that reads back to the same double. The two agree for 1/2 or 1/3, but 2/3 is `0.6666666666666667` in the model and `0.6666666666666666` in Python.
- DataCollection.ExtractBasicStats: `avg_sentence_length` and `vocabulary_richness` are the exact quotients, without the `round(..., 2)` and `round(..., 3)` of agents/data_collection.py:174-175.
- Lower, LowerChar, IsAlnum, IsWordChar: lower-casing, `str.isalnum` and the `\w` of the tokenisers cover ASCII letters and digits only. Python's are Unicode, so non-ASCII feedback tokenises, counts and lower-cases differently.
- Dedup: `list(set(...))` is modelled as de-duplication in first-occurrence order. Python's set order depends on string hashes. This changes the order of the entities (agents/data_cleaning.py:191), the emotional indicators (agents/sentiment_analysis.py:357) and the resources (agents/recommendation.py:462).
- KeyPhrases: `list(set(key_phrases))[:20]` (agents/sentiment_analysis.py:334) keeps the first twenty distinct phrases in order of first match. In Python the twenty that survive depend on the set's order, so with more than twenty distinct phrases the contents can differ too, not only the order. The same holds for the fifty-entity cut in DataCleaning.ExtractEntities (agents/data_cleaning.py:191-193).
- Regular expressions: each regex pass is an input, namely text cleaning, entity finders, sentiment patterns and cues, key-phrase and emotion matches, category patterns and topic captures. The model does not implement a regex engine.
- The mojibake replacements in `_basic_text_cleaning` and the unused `_normalize_formatting` belong to the regex pass. They are not modelled separately.

Workflow manager:

- Workflow.ItemsOf: `doc_data.setdefault(...)` (workflow/workflow_manager.py:213-215) also writes the defaults into the caller's own dicts. The model builds a new map, so the caller's input is not changed.
- Workflow.RawItem: an item's fields are `map<string, string>`. Non-string values a caller may pass (metadata dicts, timestamps, `None`) are not represented, and neither is their effect on the document's construction.
- Workflow.ItemsOf: a bare string input is walked character by character, as in the source. The model gives each character as a `{"content": ch}` item, which is what `str(doc_data)` produces for a one-character string.
- Workflow.WorkflowManager.ProcessFeedback: `processing_time_seconds`, `start_time` and `end_time` are clock readings and are not modelled. The `agent_stats` entries keep each stage's count and success flag, but not the constant `'status': 'completed'` strings.
- `initialize`, `get_status` and `shutdown` of the workflow manager and the orchestrator only set constant status strings or log, and they are not modelled. The agents' own initialisation and the unused task queue are also not modelled.

Orchestrator and report:

- `_update_knowledge_graph` (agents/master_orchestrator.py:227-249) is never called and refers to an attribute that does not exist. It is not modelled.
- WriterOutcome, Report.GeneratedFilesSpec: a written file's path is `outputDir + "/" + taskId + "_report." + format`. The source builds it with `pathlib.Path`, which drops a leading `./` and doubled or trailing slashes. So with the default output directory `./reports` Python reports `reports/<id>_report.html` where the model says `./reports/<id>_report.html`.
- The HTML and JSON writers, the HTML string assembly and the output directory's creation are file I/O. Only their outcome is modelled: written, or failed with a message.
- `collect_from_directory` and `_read_file` read the filesystem and are not modelled.

Everything else:

- Clock, uuid and timestamp values: task and batch ids, `generated_at`, and the enrichment time. They are inputs.
- Logging is not modelled.
- `asyncio` scheduling is not modelled: the stages run one after another, as plain calls.
- Exceptions that the model's types rule out, such as a record field out of range, are unreachable by construction. Each stage's `try`/`except` path is modelled only where an input can reach it: the sentiment range check, the report call, and the workflow's stage checks.
- The web dashboards, the HTTP server, the command-line front end, the sample-data generators and the test drivers are outside this model.

## Findings

| source | as written | input that shows it | evidently intended | confidence | as-written member | corrected member |
|---|---|---|---|---|---|---|
| agents/master_orchestrator.py:161 | step 7 calls `getattr(agent, 'generate_report')(input_data)` with the step's dict as its only argument, but `generate_report` (agents/report_generation.py:55-64) takes the five lists as separate parameters, so the call raises `TypeError` and the pipeline never completes | any batch, with the seven standard agents registered (main.py:48-56) | the report agent receives the dict's cleaned documents, sentiments, categorizations, insights and recommendations by name, under the batch id, and the pipeline returns its processing result | high (not executed) | Orchestrator.MasterOrchestrator.ProcessFeedbackPipeline, Orchestrator.MasterOrchestrator.ReportStep | Orchestrator.MasterOrchestrator.ProcessFeedbackPipelineIntended |
| workflow/workflow_manager.py:215 | an item without a source gets `source = "api"`, which is not one of the seven feedback sources (models/feedback_models.py:10-17), so its `FeedbackDocument` fails to build and is dropped; a batch whose items all lack a source fails with "No valid documents to process" and two counted errors | `[{"content": "The process works well overall."}]` | an item without a source gets a valid default (`other`) and is processed like any other | high (not executed) | Workflow.UnsourcedItemsDropped, Workflow.UnsourcedBatchFails, Workflow.WorkflowManager.ProcessUnsourcedBatch | Workflow.PreparedAll |
