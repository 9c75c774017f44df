/** In-place enrichment of a batch of documents, for any acceptance test and enrichment. */
module BatchEnrichment {
  import opened Wrappers
  import opened Collections
  import opened Models

  /** `d` now carries the source `sourceOf` gives it and the entries of `extra` on top of its old metadata. */
  twostate predicate EnrichedBy(d: FeedbackDocument, sourceOf: FeedbackDocument -> FeedbackSource,
                                extra: FeedbackDocument -> map<string, MetaValue>)
    reads d
  {
    d.source == Some(sourceOf(d)) && d.metadata == old(d.metadata) + extra(d)
  }

  twostate predicate Untouched(d: FeedbackDocument)
    reads d
  {
    d.source == old(d.source) && d.metadata == old(d.metadata)
  }

  lemma MergeTwice(m: map<string, MetaValue>, e: map<string, MetaValue>)
    ensures (m + e) + e == m + e
  {
  }

  /**
   * The loop of `validate_and_enrich`, for any acceptance test `keep` and any
   * enrichment (`sourceOf`, `extra`) that depends only on a document's fixed fields.
   */
  method EnrichWhere(documents: seq<FeedbackDocument>, keep: FeedbackDocument -> bool,
                     sourceOf: FeedbackDocument -> FeedbackSource, extra: FeedbackDocument -> map<string, MetaValue>)
    returns (kept: seq<FeedbackDocument>)
    modifies set d | d in documents
    ensures kept == Filter(documents, keep)
    ensures forall d :: d in documents && keep(d) ==> EnrichedBy(d, sourceOf, extra)
    ensures forall d :: d in documents && !keep(d) ==> Untouched(d)
  {
    kept := [];
    var i := 0;
    while i < |documents|
      invariant 0 <= i <= |documents|
      invariant kept == Filter(documents[..i], keep)
      invariant forall d :: d in kept ==> d in documents && EnrichedBy(d, sourceOf, extra)
      invariant forall d :: d in documents && d !in kept ==> Untouched(d)
    {
      var doc := documents[i];
      FilterStep(documents, i, keep);
      if keep(doc) {
        if doc in kept {
          MergeTwice(old(doc.metadata), extra(doc));
        }
        doc.source := Some(sourceOf(doc));
        doc.metadata := doc.metadata + extra(doc);
        kept := kept + [doc];
      }
      i := i + 1;
    }
    assert documents[..i] == documents;
    FilterMembers(documents, keep);
  }
}

/**
 * Validation and enrichment of incoming feedback documents: length bounds,
 * the alphanumeric-ratio text check, the filename check, source detection
 * by an ordered rule chain, and the statistics added to each document's
 * metadata.
 */
module DataCollection {
  import opened Wrappers
  import opened Text
  import opened Collections
  import opened Models
  import Arith
  import opened BatchEnrichment
  import opened Language

  const MinContentLength: nat := 10
  const MaxContentLength: nat := 1000000

  /** `sum(1 for c in s if c.isalnum())`. */
  function AlnumCount(s: string): (n: nat)
    ensures n <= |s|
  {
    if s == [] then 0 else AlnumCount(s[..|s| - 1]) + (if IsAlnum(s[|s| - 1]) then 1 else 0)
  }

  /** Text is valid when something remains after stripping and at least a tenth of it is alphanumeric. */
  predicate IsValidText(content: string) {
    var c := Strip(content);
    c != [] && 10 * AlnumCount(c) >= |c|
  }

  /** `_is_valid_text` as written: blank text fails, and so does an alphanumeric ratio below 0.1. */
  lemma IsValidTextRatio(content: string)
    ensures IsValidText(content) <==>
      Strip(content) != [] && !((AlnumCount(Strip(content)) as real) / (|Strip(content)| as real) < 0.1)
  {
    var c := Strip(content);
    if c != [] {
      Arith.RatioBelow(AlnumCount(c) as real, |c| as real, 0.1);
    }
  }

  /** `_validate_document`: the length bounds, the text check and a non-blank filename, all required. */
  function ValidateDocument(doc: FeedbackDocument): bool {
    if |doc.content| < MinContentLength then false
    else if |doc.content| > MaxContentLength then false
    else if !IsValidText(doc.content) then false
    else if doc.filename == [] || |Strip(doc.filename)| == 0 then false
    else true
  }

  /** Validation, stated as one conjunction of the four checks. */
  lemma ValidateDocumentSpec(doc: FeedbackDocument)
    ensures ValidateDocument(doc) <==>
      MinContentLength <= |doc.content| <= MaxContentLength
      && IsValidText(doc.content)
      && NonBlank(doc.filename)
  {
  }

  lemma {:induction false} AlnumCountCons(c: char, t: string)
    ensures AlnumCount([c] + t) == (if IsAlnum(c) then 1 else 0) + AlnumCount(t)
  {
    if t != [] {
      var init := t[..|t| - 1];
      assert ([c] + t)[..|[c] + t| - 1] == [c] + init;
      AlnumCountCons(c, init);
    }
  }

  /** Stripping removes only whitespace, which is never alphanumeric. */
  lemma {:induction false} AlnumCountStrip(s: string)
    ensures AlnumCount(Strip(s)) == AlnumCount(s)
  {
    AlnumCountLStrip(s);
    AlnumCountRStrip(LStrip(s));
  }

  lemma {:induction false} AlnumCountLStrip(s: string)
    ensures AlnumCount(LStrip(s)) == AlnumCount(s)
  {
    if s != [] && IsSpace(s[0]) {
      AlnumCountLStrip(s[1..]);
      AlnumCountCons(s[0], s[1..]);
      assert [s[0]] + s[1..] == s;
    }
  }

  lemma {:induction false} AlnumCountRStrip(s: string)
    ensures AlnumCount(RStrip(s)) == AlnumCount(s)
  {
    if s != [] && IsSpace(s[|s| - 1]) {
      AlnumCountRStrip(s[..|s| - 1]);
    }
  }

  /** A document that passes validation holds at least one letter or digit, and enough of them. */
  lemma ValidDocumentHasAlnum(doc: FeedbackDocument)
    requires ValidateDocument(doc)
    ensures AlnumCount(doc.content) >= 1
    ensures 10 * AlnumCount(doc.content) >= |Strip(doc.content)|
  {
    AlnumCountStrip(doc.content);
  }

  /** One line of the source-detection chain: any of `terms` as a substring selects `source`. */
  datatype Rule = Rule(terms: seq<string>, source: FeedbackSource)

  const FilenameRules: seq<Rule> := [
    Rule(["expert", "specialist", "review"], ExpertReport),
    Rule(["internal", "assessment"], InternalAssessment),
    Rule(["peer", "colleague"], PeerReview),
    Rule(["technical", "tech"], TechnicalReview),
    Rule(["process", "procedure"], ProcessEvaluation),
    Rule(["quality", "audit"], QualityAudit)
  ]

  const ContentRules: seq<Rule> := [
    Rule(["technical issue", "bug", "error", "system"], TechnicalReview),
    Rule(["process", "procedure", "workflow"], ProcessEvaluation),
    Rule(["quality", "standard", "compliance"], QualityAudit),
    Rule(["expert opinion", "specialist view"], ExpertReport)
  ]

  predicate Matches(rule: Rule, text: string) {
    ContainsAny(text, rule.terms)
  }

  /** The index of the first rule that matches `text`, if any. */
  function FirstMatch(rules: seq<Rule>, text: string): (r: Option<nat>)
    ensures r.Some? ==> r.value < |rules| && Matches(rules[r.value], text)
    ensures r.Some? ==> forall j :: 0 <= j < r.value ==> !Matches(rules[j], text)
    ensures r.None? ==> forall j :: 0 <= j < |rules| ==> !Matches(rules[j], text)
  {
    if rules == [] then None
    else if Matches(rules[0], text) then Some(0)
    else match FirstMatch(rules[1..], text)
      case Some(k) => Some(k + 1)
      case None => None
  }

  /**
   * `_detect_source_type`: the filename rules are tried before the content
   * rules, on lower-cased text, and the first matching rule wins.
   */
  function DetectSourceType(filename: string, content: string): (s: FeedbackSource)
    ensures Matches(FilenameRules[0], Lower(filename)) ==> s == ExpertReport
    ensures ((forall j :: 0 <= j < |FilenameRules| ==> !Matches(FilenameRules[j], Lower(filename)))
             && Matches(ContentRules[0], Lower(content))) ==> s == TechnicalReview
    ensures s == OtherSource <==>
      (forall j :: 0 <= j < |FilenameRules| ==> !Matches(FilenameRules[j], Lower(filename)))
      && (forall j :: 0 <= j < |ContentRules| ==> !Matches(ContentRules[j], Lower(content)))
  {
    match FirstMatch(FilenameRules, Lower(filename))
    case Some(i) => FilenameRules[i].source
    case None =>
      match FirstMatch(ContentRules, Lower(content))
      case Some(j) => ContentRules[j].source
      case None => OtherSource
  }

  /** The rule chain as a ranking: the chosen rule beats every rule tried before it. */
  lemma {:induction false} DetectSourceFirstMatchWins(filename: string, content: string, i: nat)
    requires i < |FilenameRules| && Matches(FilenameRules[i], Lower(filename))
    requires forall j :: 0 <= j < i ==> !Matches(FilenameRules[j], Lower(filename))
    ensures DetectSourceType(filename, content) == FilenameRules[i].source
  {
    var r := FirstMatch(FilenameRules, Lower(filename));
    assert r.Some?;
    assert r.value == i;
  }

  /** The content rules in their order: once no filename rule matches, the first matching content rule wins. */
  lemma {:induction false} DetectSourceContentFirstMatchWins(filename: string, content: string, i: nat)
    requires forall j :: 0 <= j < |FilenameRules| ==> !Matches(FilenameRules[j], Lower(filename))
    requires i < |ContentRules| && Matches(ContentRules[i], Lower(content))
    requires forall j :: 0 <= j < i ==> !Matches(ContentRules[j], Lower(content))
    ensures DetectSourceType(filename, content) == ContentRules[i].source
  {
    var f := FirstMatch(FilenameRules, Lower(filename));
    assert f.None?;
    var r := FirstMatch(ContentRules, Lower(content));
    assert r.Some?;
    assert r.value == i;
  }

  predicate NonBlank(s: string) { Strip(s) != [] }

  /** `len([p for p in content.split('\n\n') if p.strip()])`. */
  function ParagraphCount(content: string): nat {
    |Filter(SplitOn(content, "\n\n"), NonBlank)|
  }

  datatype BasicStats = BasicStats(
    sentenceCount: nat,
    paragraphCount: nat,
    uniqueWords: nat,
    avgSentenceLength: real,
    vocabularyRichness: real)

  function MaxOne(n: nat): (r: nat)
    ensures r >= 1 && (n >= 1 ==> r == n)
  {
    if n < 1 then 1 else n
  }

  /** `_extract_basic_stats` (before rounding). */
  function ExtractBasicStats(content: string): BasicStats {
    var words := WordTokens(Lower(content));
    var sentences := TerminalRunCount(content);
    var unique := |Dedup(words)|;
    BasicStats(
      sentences,
      ParagraphCount(content),
      unique,
      (|words| as real) / (MaxOne(sentences) as real),
      (unique as real) / (MaxOne(|words|) as real))
  }

  /**
   * The average sentence length is the word count over at least one
   * sentence, and the vocabulary richness is a ratio in [0, 1], positive as
   * soon as there is a word.
   */
  lemma BasicStatsBounds(content: string)
    ensures ExtractBasicStats(content).uniqueWords <= |WordTokens(Lower(content))|
    ensures ExtractBasicStats(content).avgSentenceLength
            == (|WordTokens(Lower(content))| as real) / (MaxOne(ExtractBasicStats(content).sentenceCount) as real)
    ensures 0.0 <= ExtractBasicStats(content).vocabularyRichness <= 1.0
    ensures WordTokens(Lower(content)) != [] <==> 0.0 < ExtractBasicStats(content).vocabularyRichness
  {
    var words := WordTokens(Lower(content));
    assert words != [] ==> words[0] in Dedup(words);
    var u := |Dedup(words)| as real;
    var w := MaxOne(|words|) as real;
    assert ExtractBasicStats(content).vocabularyRichness == u / w;
    Arith.RatioUnit(u, w);
    Arith.RatioAbove(u, w, 0.0);
  }

  const EnglishWords: set<string> := {
    "the", "and", "or", "but", "in", "on", "at", "to", "for", "of", "with",
    "by", "from", "up", "about", "into", "through", "during", "before",
    "after", "above", "below", "between", "among", "is", "are", "was",
    "were", "be", "been", "being", "have", "has", "had", "do", "does",
    "did", "will", "would", "could", "should", "may", "might", "must",
    "can", "this", "that", "these", "those", "a", "an"
  }

  /** `_detect_language` of the collection stage: common English words among the `\w+` tokens. */
  function DetectLanguage(content: string): (lang: string)
    ensures lang == "en" || lang == "unknown"
  {
    IndicatorLanguage(WordTokens(Lower(content)), EnglishWords, 10)
  }

  /** No words gives "unknown"; otherwise "en" exactly when the common-word ratio exceeds 0.1. */
  lemma DetectLanguageRatio(content: string)
    ensures var words := WordTokens(Lower(content));
            (words == [] ==> DetectLanguage(content) == "unknown")
            && (words != [] ==>
                  (DetectLanguage(content) == "en"
                   <==> (CountIn(words, EnglishWords) as real) / (|words| as real) > 0.1))
  {
    var words := WordTokens(Lower(content));
    if words != [] {
      IndicatorLanguageRatio(words, EnglishWords, 10, 0.1);
    }
  }

  const ContentTypes: map<string, string> := map[
    ".txt" := "text/plain",
    ".pdf" := "application/pdf",
    ".docx" := "application/vnd.openxmlformats-officedocument.wordprocessingml.document",
    ".csv" := "text/csv",
    ".json" := "application/json"
  ]

  /** `_get_content_type`: known extensions, compared case-insensitively; anything else is plain text. */
  function GetContentType(extension: string): (t: string)
    ensures Lower(extension) !in ContentTypes ==> t == "text/plain"
    ensures t in ContentTypes.Values
  {
    var e := Lower(extension);
    assert ContentTypes[".txt"] == "text/plain";
    if e in ContentTypes then ContentTypes[e] else "text/plain"
  }

  lemma LowerIdempotent(s: string)
    ensures Lower(Lower(s)) == Lower(s)
  {
  }

  lemma {:induction false} ContentTypeIgnoresCase(extension: string)
    ensures GetContentType(Lower(extension)) == GetContentType(extension)
  {
    LowerIdempotent(extension);
  }

  /** The first batch of entries: counts of the raw text, the clock reading and the agent version. */
  function BasicEntries(content: string, now: string): (m: map<string, MetaValue>)
    ensures "character_count" in m && m["character_count"] == IntVal(|content|)
    ensures "word_count" in m && m["word_count"] == IntVal(|Words(content)|)
  {
    map[
      "word_count" := IntVal(|Words(content)|),
      "character_count" := IntVal(|content|),
      "line_count" := IntVal(LineCount(content)),
      "processed_at" := StrVal(now),
      "agent_version" := StrVal("1.0.0")]
  }

  /** The second batch: the statistics of `_extract_basic_stats`. */
  function StatsEntries(content: string): map<string, MetaValue> {
    var st := ExtractBasicStats(content);
    map[
      "sentence_count" := IntVal(st.sentenceCount),
      "paragraph_count" := IntVal(st.paragraphCount),
      "unique_words" := IntVal(st.uniqueWords),
      "avg_sentence_length" := RealVal(st.avgSentenceLength),
      "vocabulary_richness" := RealVal(st.vocabularyRichness)]
  }

  /** Everything `_enrich_document` merges into the metadata, later batches overriding earlier ones. */
  function EnrichmentMetadata(content: string, now: string): (m: map<string, MetaValue>)
    ensures "detected_language" in m && m["detected_language"] == StrVal(DetectLanguage(content))
  {
    BasicEntries(content, now) + StatsEntries(content) + map["detected_language" := StrVal(DetectLanguage(content))]
  }

  /** Enrichment only adds its own keys: every other entry the caller put in the metadata survives. */
  lemma EnrichmentKeepsCallerEntries(m: map<string, MetaValue>, content: string, now: string)
    ensures (m + EnrichmentMetadata(content, now)).Keys == m.Keys + EnrichmentMetadata(content, now).Keys
    ensures forall k :: k in m && k !in EnrichmentMetadata(content, now) ==>
      (m + EnrichmentMetadata(content, now))[k] == m[k]
  {
  }

  lemma MergeInSteps(m: map<string, MetaValue>, a: map<string, MetaValue>, b: map<string, MetaValue>, k: string, v: MetaValue)
    ensures ((m + a) + b)[k := v] == m + (a + b + map[k := v])
  {
  }

  /** `_enrich_document`: sets the detected source and merges the enrichment entries into the metadata. */
  method EnrichDocument(doc: FeedbackDocument, now: string)
    modifies doc
    ensures doc.source == Some(DetectSourceType(doc.filename, doc.content))
    ensures doc.metadata == old(doc.metadata) + EnrichmentMetadata(doc.content, now)
  {
    doc.source := Some(DetectSourceType(doc.filename, doc.content));
    doc.metadata := doc.metadata + BasicEntries(doc.content, now);
    doc.metadata := doc.metadata + StatsEntries(doc.content);
    doc.metadata := doc.metadata["detected_language" := StrVal(DetectLanguage(doc.content))];
    MergeInSteps(old(doc.metadata), BasicEntries(doc.content, now), StatsEntries(doc.content),
                 "detected_language", StrVal(DetectLanguage(doc.content)));
  }

  /**
   * `validate_and_enrich`: the documents that validate, in input order, each
   * enriched in place as `EnrichDocument` does; rejected documents are left untouched.
   */
  method ValidateAndEnrich(documents: seq<FeedbackDocument>, now: string) returns (validated: seq<FeedbackDocument>)
    modifies set d | d in documents
    ensures validated == Filter(documents, ValidateDocument)
    ensures forall d :: d in documents && ValidateDocument(d) ==>
      d.source == Some(DetectSourceType(d.filename, d.content))
      && d.metadata == old(d.metadata) + EnrichmentMetadata(d.content, now)
    ensures forall d :: d in documents && !ValidateDocument(d) ==>
      d.source == old(d.source) && d.metadata == old(d.metadata)
  {
    validated := EnrichWhere(documents, ValidateDocument,
                             (d: FeedbackDocument) => DetectSourceType(d.filename, d.content),
                             (d: FeedbackDocument) => EnrichmentMetadata(d.content, now));
  }

}
