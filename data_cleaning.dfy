/**
 * The cleaning stage: sentence de-duplication, the five-part quality score,
 * the stop-word language flag and entity filtering. The regular-expression
 * passes (`_basic_text_cleaning` and the entity finders) are parameters.
 */
module DataCleaning {
  import opened Text
  import opened Collections
  import opened Models
  import opened Language
  import Arith

  const StopWords: set<string> := {
    "a", "an", "and", "are", "as", "at", "be", "by", "for", "from",
    "has", "he", "in", "is", "it", "its", "of", "on", "that", "the",
    "to", "was", "will", "with", "this", "but", "they", "have",
    "had", "what", "said", "each", "which", "she", "do", "how", "their",
    "if", "up", "out", "many", "then", "them", "these", "so", "some",
    "her", "would", "make", "like", "into", "him", "time", "two", "more",
    "go", "no", "way", "could", "my", "than", "first", "been", "call",
    "who", "oil", "sit", "now", "find", "down", "day", "did", "get",
    "come", "made", "may", "part"
  }

  /** A sentence is kept only when it is longer than this. */
  const MinSentenceLength: nat := 10

  const MaxEntities: nat := 50

  // ---------------------------------------------------------------------------
  // `_remove_duplicates`
  // ---------------------------------------------------------------------------

  /** `[s.strip() for s in pieces if s.strip()]`. */
  function StrippedPieces(pieces: seq<string>): (r: seq<string>)
    ensures |r| <= |pieces|
  {
    if pieces == [] then []
    else (if Strip(pieces[0]) != [] then [Strip(pieces[0])] else []) + StrippedPieces(pieces[1..])
  }

  /** The sentences `_remove_duplicates` works on: terminator-separated, stripped, non-blank. */
  function Sentences(content: string): seq<string> {
    StrippedPieces(SplitTerminal(content))
  }

  /** A sentence as `Sentences` produces it: non-empty, stripped, without terminators. */
  predicate CleanSentence(s: string) {
    s != [] && NoTerminal(s) && Strip(s) == s
  }

  lemma {:induction false} StrippedPiecesClean(pieces: seq<string>)
    requires forall k :: 0 <= k < |pieces| ==> NoTerminal(pieces[k])
    ensures forall s :: s in StrippedPieces(pieces) ==> CleanSentence(s)
  {
    if pieces != [] {
      StrippedPiecesClean(pieces[1..]);
      StripNoTerminal(pieces[0]);
      StripIdempotent(pieces[0]);
    }
  }

  lemma SentencesClean(content: string)
    ensures forall s :: s in Sentences(content) ==> CleanSentence(s)
  {
    StrippedPiecesClean(SplitTerminal(content));
  }

  /** The lower-cased forms of the sentences in `xs`. */
  function LowerSet(xs: seq<string>): set<string> {
    set i | 0 <= i < |xs| :: Lower(xs[i])
  }

  /** The lower-cased forms of the sentences of `ss` long enough to be kept. */
  function LongLowers(ss: seq<string>): set<string> {
    set i | 0 <= i < |ss| && |ss[i]| > MinSentenceLength :: Lower(ss[i])
  }

  lemma LowerSetAppend(xs: seq<string>, s: string)
    ensures LowerSet(xs + [s]) == LowerSet(xs) + {Lower(s)}
  {
    var ys := xs + [s];
    assert forall i :: 0 <= i < |xs| ==> ys[i] == xs[i];
    assert ys[|xs|] == s;
  }

  lemma LongLowersAppend(xs: seq<string>, s: string)
    ensures LongLowers(xs + [s]) == LongLowers(xs) + (if |s| > MinSentenceLength then {Lower(s)} else {})
  {
    var ys := xs + [s];
    assert forall i :: 0 <= i < |xs| ==> ys[i] == xs[i];
    assert ys[|xs|] == s;
  }

  /**
   * The sentences the de-duplication loop keeps: a sentence longer than ten
   * characters whose lower-cased form has not been kept before.
   */
  function KeepUnique(ss: seq<string>): (r: seq<string>)
    ensures forall k :: 0 <= k < |r| ==> |r[k]| > MinSentenceLength && r[k] in ss
    ensures forall i, j :: 0 <= i < j < |r| ==> Lower(r[i]) != Lower(r[j])
    ensures LowerSet(r) == LongLowers(ss)
  {
    if ss == [] then []
    else
      var init := ss[..|ss| - 1];
      var s := ss[|ss| - 1];
      assert ss == init + [s];
      var kept := KeepUnique(init);
      LongLowersAppend(init, s);
      if Lower(s) !in LowerSet(kept) && |s| > MinSentenceLength then
        LowerSetAppend(kept, s);
        kept + [s]
      else kept
  }

  /** `'. '.join(unique_sentences) + '.'`. */
  function Render(unique: seq<string>): (r: string)
    ensures r != [] && r[|r| - 1] == '.'
  {
    Join(unique, ". ") + "."
  }

  /** What `_remove_duplicates` returns for `content`. */
  function Deduplicated(content: string): string {
    Render(KeepUnique(Sentences(content)))
  }

  /** `_remove_duplicates`: keeps the first long occurrence of each sentence, ignoring case. */
  method RemoveDuplicates(content: string) returns (r: string)
    ensures r == Deduplicated(content)
    ensures r != [] && r[|r| - 1] == '.'
  {
    var sentences := Sentences(content);
    var seen: set<string> := {};
    var unique: seq<string> := [];
    var i := 0;
    while i < |sentences|
      invariant 0 <= i <= |sentences|
      invariant unique == KeepUnique(sentences[..i])
      invariant seen == LowerSet(unique)
    {
      var sentence := sentences[i];
      var sentenceLower := Lower(sentence);
      assert sentences[..i + 1][..i] == sentences[..i];
      if sentenceLower !in seen && |sentence| > MinSentenceLength {
        LowerSetAppend(unique, sentence);
        seen := seen + {sentenceLower};
        unique := unique + [sentence];
      }
      i := i + 1;
    }
    assert sentences[..i] == sentences;
    r := Join(unique, ". ") + ".";
  }

  /** `ss[i]` is long and no earlier long sentence has the same lower-cased form. */
  predicate FirstLong(ss: seq<string>, i: nat)
    requires i < |ss|
  {
    |ss[i]| > MinSentenceLength
    && forall j :: 0 <= j < i && |ss[j]| > MinSentenceLength ==> Lower(ss[j]) != Lower(ss[i])
  }

  /** Reference definition: the first long occurrence of every sentence, in input order. */
  function FirstLongs(ss: seq<string>): seq<string> {
    if ss == [] then []
    else FirstLongs(ss[..|ss| - 1]) + (if FirstLong(ss, |ss| - 1) then [ss[|ss| - 1]] else [])
  }

  /** The loop keeps exactly the first long occurrence of each sentence, in first-occurrence order. */
  lemma {:induction false} KeepUniqueIsFirstLongs(ss: seq<string>)
    ensures KeepUnique(ss) == FirstLongs(ss)
  {
    if ss != [] {
      var init := ss[..|ss| - 1];
      var s := ss[|ss| - 1];
      KeepUniqueIsFirstLongs(init);
      assert forall j :: 0 <= j < |init| ==> init[j] == ss[j];
      assert FirstLong(ss, |ss| - 1) <==> |s| > MinSentenceLength && Lower(s) !in LongLowers(init);
    }
  }

  lemma {:induction false} KeepUniqueFixed(u: seq<string>)
    requires forall k :: 0 <= k < |u| ==> |u[k]| > MinSentenceLength
    requires forall i, j :: 0 <= i < j < |u| ==> Lower(u[i]) != Lower(u[j])
    ensures KeepUnique(u) == u
  {
    if u != [] {
      var init := u[..|u| - 1];
      KeepUniqueFixed(init);
      assert Lower(u[|u| - 1]) !in LowerSet(init);
      assert u == init + [u[|u| - 1]];
    }
  }

  /** Splitting after a terminator-free prefix and one terminator yields that prefix first. */
  lemma SplitTerminalAfter(x: string, rest: string)
    requires NoTerminal(x)
    requires rest == [] || !IsTerminal(rest[0])
    ensures SplitTerminal(x + "." + rest) == [x] + SplitTerminal(rest)
  {
    var s := x + "." + rest;
    assert forall i :: 0 <= i < |x| ==> s[i] == x[i];
    SpanLengthExact(s, NotTerminal, |x|);
    var t := s[|x|..];
    assert t == "." + rest;
    SpanLengthExact(t, IsTerminal, 1);
    assert s[..|x|] == x;
    assert s[|x| + 1..] == rest;
  }

  lemma EmptySentences(pre: string)
    requires pre == "" || pre == " "
    ensures Sentences(pre + ".") == []
  {
    assert pre + "." == pre + "." + "";
    SplitTerminalAfter(pre, "");
    assert SplitTerminal("") == [""];
    assert Strip(pre) == [];
    assert StrippedPieces([""]) == [];
  }

  /** The rendering of a non-empty list: its first sentence, a '.', and the rendering of the rest after a space. */
  lemma RenderFirst(pre: string, u: seq<string>)
    requires u != []
    ensures pre + Render(u) == (pre + u[0]) + "." + (if |u| == 1 then "" else " " + Render(u[1..]))
  {
    if |u| > 1 {
      var j := Join(u[1..], ". ");
      assert Render(u) == u[0] + ". " + j + ".";
      assert pre + (u[0] + ". " + j + ".") == (pre + u[0]) + "." + (" " + (j + "."));
    } else {
      assert pre + (u[0] + ".") == (pre + u[0]) + "." + "";
    }
  }

  /** A clean sentence after an optional space is still terminator-free and strips back to itself. */
  lemma PrefixedSentence(pre: string, s: string)
    requires pre == "" || pre == " "
    requires CleanSentence(s)
    ensures NoTerminal(pre + s) && Strip(pre + s) == s
  {
    if pre == " " {
      StripLeadingSpace(' ', s);
      assert [' '] + s == pre + s;
    } else {
      assert pre + s == s;
    }
  }

  /** A terminator-free, non-blank first piece followed by '.' is the first sentence. */
  lemma SentencesFirst(x: string, rest: string)
    requires NoTerminal(x) && Strip(x) != []
    requires rest == [] || !IsTerminal(rest[0])
    ensures Sentences(x + "." + rest) == [Strip(x)] + Sentences(rest)
  {
    SplitTerminalAfter(x, rest);
    var pieces := [x] + SplitTerminal(rest);
    assert pieces[0] == x && pieces[1..] == SplitTerminal(rest);
  }

  /** One step of the round trip: the first sentence comes back, then the rest as it did on its own. */
  lemma SentencesOfRenderStep(pre: string, u: seq<string>)
    requires pre == "" || pre == " "
    requires u != [] && CleanSentence(u[0])
    requires |u| > 1 ==> Sentences(" " + Render(u[1..])) == u[1..]
    ensures Sentences(pre + Render(u)) == u
  {
    PrefixedSentence(pre, u[0]);
    RenderFirst(pre, u);
    var rest := if |u| == 1 then "" else " " + Render(u[1..]);
    SentencesFirst(pre + u[0], rest);
    if |u| == 1 {
      assert SplitTerminal(rest) == [""];
    }
    ConsSplit(u);
  }

  /** Rendering clean sentences and splitting again gives them back. */
  lemma {:induction false} SentencesOfRender(pre: string, u: seq<string>)
    requires pre == "" || pre == " "
    requires forall k :: 0 <= k < |u| ==> CleanSentence(u[k])
    ensures Sentences(pre + Render(u)) == u
    decreases |u|
  {
    if u == [] {
      assert pre + Render(u) == pre + ".";
      EmptySentences(pre);
    } else {
      if |u| > 1 {
        SentencesOfRender(" ", u[1..]);
      }
      SentencesOfRenderStep(pre, u);
    }
  }

  /** `_remove_duplicates` applied to its own output returns that output unchanged. */
  lemma RemoveDuplicatesIdempotent(content: string)
    ensures Deduplicated(Deduplicated(content)) == Deduplicated(content)
  {
    var kept := KeepUnique(Sentences(content));
    SentencesClean(content);
    SentencesOfRender("", kept);
    assert "" + Render(kept) == Render(kept);
    KeepUniqueFixed(kept);
  }

  /**
   * The de-duplicated text ends with '.', and the sentences it holds are long,
   * distinct ignoring case, and cover every long sentence of the input.
   */
  lemma DeduplicatedSentences(content: string)
    ensures var out := Deduplicated(content);
            var kept := Sentences(out);
            out[|out| - 1] == '.'
            && (forall k :: 0 <= k < |kept| ==> |kept[k]| > MinSentenceLength && kept[k] in Sentences(content))
            && (forall i, j :: 0 <= i < j < |kept| ==> Lower(kept[i]) != Lower(kept[j]))
            && LowerSet(kept) == LongLowers(Sentences(content))
  {
    var kept := KeepUnique(Sentences(content));
    SentencesClean(content);
    SentencesOfRender("", kept);
    assert "" + Render(kept) == Render(kept);
  }

  // ---------------------------------------------------------------------------
  // `_calculate_quality_score`
  // ---------------------------------------------------------------------------

  /*
   * The three ratio tests of the score are written by cross-multiplication, so
   * the parts stay in linear arithmetic; the `...Ratio` lemmas show each part
   * equals the test on the quotient the source computes.
   */

  /** Length preservation, worth up to 0.2: the cleaned length over the original one. */
  function LengthPart(cleaned: string, original: string): (part: real)
    ensures 0.0 <= part <= 0.2
  {
    var c := |cleaned|;
    var o := |original|;
    if 7 * o <= 10 * c && c <= o then 0.2 else if o <= 2 * c && 10 * c < 7 * o then 0.1 else 0.0
  }

  lemma LengthPartRatio(cleaned: string, original: string)
    requires original != []
    ensures var ratio := (|cleaned| as real) / (|original| as real);
            LengthPart(cleaned, original)
            == if 0.7 <= ratio <= 1.0 then 0.2 else if 0.5 <= ratio < 0.7 then 0.1 else 0.0
  {
    var c := |cleaned| as real;
    var o := |original| as real;
    Arith.RatioAtLeast(c, o, 0.7);
    Arith.RatioAtMost(c, o, 1.0);
    Arith.RatioAtLeast(c, o, 0.5);
  }

  /** A fragment counts towards sentence structure when its stripped length exceeds 5. */
  predicate ValidSentence(s: string) { |Strip(s)| > 5 }

  /** `sum(len(s.split()) for s in sentences)`. */
  function WordTotal(sentences: seq<string>): nat {
    if sentences == [] then 0
    else WordTotal(sentences[..|sentences| - 1]) + |Words(sentences[|sentences| - 1])|
  }

  /** The structure band for `total` words over `n` sentences: the average in [5, 30], [3, 5) or (30, 50], or else. */
  function StructureBand(total: nat, n: nat): (part: real)
    ensures 0.0 <= part <= 0.3
    ensures n > 0 <==> part > 0.0
  {
    if n == 0 then 0.0
    else if 5 * n <= total <= 30 * n then 0.3
    else if (3 * n <= total < 5 * n) || (30 * n < total <= 50 * n) then 0.2
    else 0.1
  }

  lemma StructureBandRatio(total: nat, n: nat)
    requires n > 0
    ensures var avg := (total as real) / (n as real);
            StructureBand(total, n)
            == if 5.0 <= avg <= 30.0 then 0.3
               else if (3.0 <= avg < 5.0) || (30.0 < avg <= 50.0) then 0.2
               else 0.1
  {
    var t := total as real;
    var m := n as real;
    Arith.RatioAtLeast(t, m, 5.0);
    Arith.RatioAtMost(t, m, 30.0);
    Arith.RatioAtLeast(t, m, 3.0);
    Arith.RatioAtMost(t, m, 50.0);
  }

  /** Sentence structure, worth up to 0.3: the average word count of the fragments that count. */
  function StructurePart(cleaned: string): real {
    var valid := Filter(SplitTerminal(cleaned), ValidSentence);
    StructureBand(WordTotal(valid), |valid|)
  }

  /** The diversity band for `unique` distinct words among `n`: the ratio above 0.5, above 0.3, or not. */
  function DiversityBand(unique: nat, n: nat): (part: real)
    ensures 0.0 <= part <= 0.2
    ensures n > 0 <==> part > 0.0
  {
    if n == 0 then 0.0
    else if 2 * unique > n then 0.2
    else if 10 * unique > 3 * n then 0.15
    else 0.1
  }

  lemma DiversityBandRatio(unique: nat, n: nat)
    requires n > 0
    ensures var ratio := (unique as real) / (n as real);
            DiversityBand(unique, n) == if ratio > 0.5 then 0.2 else if ratio > 0.3 then 0.15 else 0.1
  {
    Arith.RatioAbove(unique as real, n as real, 0.5);
    Arith.RatioAbove(unique as real, n as real, 0.3);
  }

  /** Vocabulary diversity, worth up to 0.2: distinct lower-cased words over all of them. */
  function DiversityPart(cleaned: string): real {
    var words := Words(Lower(cleaned));
    DiversityBand(|Dedup(words)|, |words|)
  }

  predicate IsClauseMark(c: char) { c == ',' || c == ';' || c == ':' }

  predicate HasClauseMark(s: string) { exists i :: 0 <= i < |s| && IsClauseMark(s[i]) }

  /** Punctuation, worth up to 0.15. */
  function PunctuationPart(cleaned: string): (part: real)
    ensures 0.0 <= part <= 0.15
  {
    (if !NoTerminal(cleaned) then 0.1 else 0.0) + (if HasClauseMark(cleaned) then 0.05 else 0.0)
  }

  /** Coherence by word count, worth 0.05 to 0.15. */
  function CoherencePart(cleaned: string): (part: real)
    ensures 0.05 <= part <= 0.15
  {
    var n := |Words(cleaned)|;
    if n >= 10 then 0.15 else if n >= 5 then 0.1 else 0.05
  }

  /** The quality score: zero for an empty text, else the sum of the five parts, capped at 1. */
  function QualityScore(cleaned: string, original: string): real {
    if cleaned == [] || original == [] then 0.0
    else
      var total := LengthPart(cleaned, original) + StructurePart(cleaned) + DiversityPart(cleaned)
                   + PunctuationPart(cleaned) + CoherencePart(cleaned);
      if total < 1.0 then total else 1.0
  }

  lemma QualityScoreOfParts(cleaned: string, original: string,
                            length: real, structure: real, diversity: real, punctuation: real, coherence: real)
    requires cleaned != [] && original != []
    requires length == LengthPart(cleaned, original) && structure == StructurePart(cleaned)
    requires diversity == DiversityPart(cleaned) && punctuation == PunctuationPart(cleaned)
    requires coherence == CoherencePart(cleaned)
    ensures var total := length + structure + diversity + punctuation + coherence;
            QualityScore(cleaned, original) == if total < 1.0 then total else 1.0
  {
  }

  /** `_calculate_quality_score`, accumulating the parts one after another. */
  method CalculateQualityScore(cleaned: string, original: string) returns (score: real)
    ensures score == QualityScore(cleaned, original)
  {
    if cleaned == [] || original == [] {
      return 0.0;
    }
    score := 0.0;

    var c := |cleaned|;
    var o := |original|;
    if 7 * o <= 10 * c && c <= o {
      score := score + 0.2;
    } else if o <= 2 * c && 10 * c < 7 * o {
      score := score + 0.1;
    }
    ghost var length := score;
    assert length == LengthPart(cleaned, original);

    var validSentences := Filter(SplitTerminal(cleaned), ValidSentence);
    var n := |validSentences|;
    if n > 0 {
      var total := WordTotal(validSentences);
      if 5 * n <= total <= 30 * n {
        score := score + 0.3;
      } else if (3 * n <= total < 5 * n) || (30 * n < total <= 50 * n) {
        score := score + 0.2;
      } else {
        score := score + 0.1;
      }
    }
    ghost var structure := score - length;
    assert structure == StructureBand(WordTotal(validSentences), n) == StructurePart(cleaned);

    var words := Words(Lower(cleaned));
    if words != [] {
      var unique := |Dedup(words)|;
      if 2 * unique > |words| {
        score := score + 0.2;
      } else if 10 * unique > 3 * |words| {
        score := score + 0.15;
      } else {
        score := score + 0.1;
      }
    }
    ghost var diversity := score - length - structure;
    assert diversity == DiversityBand(|Dedup(words)|, |words|) == DiversityPart(cleaned);

    if !NoTerminal(cleaned) {
      score := score + 0.1;
    }
    if HasClauseMark(cleaned) {
      score := score + 0.05;
    }
    ghost var punctuation := score - length - structure - diversity;
    assert punctuation == PunctuationPart(cleaned);

    var wordCount := |Words(cleaned)|;
    if wordCount >= 10 {
      score := score + 0.15;
    } else if wordCount >= 5 {
      score := score + 0.1;
    } else {
      score := score + 0.05;
    }
    ghost var coherence := score - length - structure - diversity - punctuation;
    assert coherence == CoherencePart(cleaned);
    QualityScoreOfParts(cleaned, original, length, structure, diversity, punctuation, coherence);

    score := if score < 1.0 then score else 1.0;
  }

  /**
   * The score is 0 when either text is empty and otherwise lies in [0.05, 1];
   * the five parts never add up to more than 1, so the cap never bites.
   */
  lemma QualityScoreBounds(cleaned: string, original: string)
    ensures cleaned == [] || original == [] ==> QualityScore(cleaned, original) == 0.0
    ensures cleaned != [] && original != [] ==>
      0.05 <= QualityScore(cleaned, original) <= 1.0
      && QualityScore(cleaned, original) == LengthPart(cleaned, original) + StructurePart(cleaned)
           + DiversityPart(cleaned) + PunctuationPart(cleaned) + CoherencePart(cleaned)
  {
    var total := LengthPart(cleaned, original) + StructurePart(cleaned) + DiversityPart(cleaned)
                 + PunctuationPart(cleaned) + CoherencePart(cleaned);
    assert 0.05 <= total <= 1.0;
  }

  // ---------------------------------------------------------------------------
  // `_detect_language`
  // ---------------------------------------------------------------------------

  const EnglishIndicators: set<string> := {
    "the", "and", "or", "but", "in", "on", "at", "to", "for", "of",
    "with", "by", "from", "is", "are", "was", "were", "be", "been",
    "have", "has", "had", "do", "does", "did", "will", "would",
    "could", "should", "this", "that", "these", "those"
  }

  /** `_detect_language` of the cleaning stage: indicator words among the `\w+` tokens. */
  function CleaningLanguage(content: string): (lang: string)
    ensures lang == "en" || lang == "unknown"
  {
    IndicatorLanguage(WordTokens(Lower(content)), EnglishIndicators, 20)
  }

  /** No words gives "unknown"; otherwise "en" exactly when the indicator ratio exceeds 0.05. */
  lemma CleaningLanguageRatio(content: string)
    ensures var words := WordTokens(Lower(content));
            (words == [] ==> CleaningLanguage(content) == "unknown")
            && (words != [] ==>
                  (CleaningLanguage(content) == "en"
                   <==> (CountIn(words, EnglishIndicators) as real) / (|words| as real) > 0.05))
  {
    var words := WordTokens(Lower(content));
    if words != [] {
      IndicatorLanguageRatio(words, EnglishIndicators, 20, 0.05);
    }
  }

  // ---------------------------------------------------------------------------
  // `_extract_entities`
  // ---------------------------------------------------------------------------

  /** An entity survives when longer than two characters and not a stop word in lower case. */
  predicate KeepsEntity(e: string) {
    |e| > 2 && Lower(e) !in StopWords
  }

  /**
   * `_extract_entities` after its pattern searches: the surviving candidates,
   * without repeats, at most fifty of them.
   */
  function ExtractEntities(candidates: seq<string>): seq<string> {
    Take(Dedup(Filter(candidates, KeepsEntity)), MaxEntities)
  }

  /**
   * Entities are distinct, at most fifty, each a surviving candidate; when
   * fewer than fifty distinct candidates survive, every one of them is kept.
   */
  lemma ExtractEntitiesSpec(candidates: seq<string>)
    ensures var r := ExtractEntities(candidates);
            |r| <= MaxEntities && Distinct(r)
            && (forall k :: 0 <= k < |r| ==> KeepsEntity(r[k]) && r[k] in candidates)
            && (|Dedup(Filter(candidates, KeepsEntity))| <= MaxEntities ==>
                  forall k :: 0 <= k < |candidates| && KeepsEntity(candidates[k]) ==> candidates[k] in r)
  {
    var f := Filter(candidates, KeepsEntity);
    FilterMembers(candidates, KeepsEntity);
    TakeDistinct(Dedup(f), MaxEntities);
    var r := ExtractEntities(candidates);
    forall k | 0 <= k < |r|
      ensures KeepsEntity(r[k]) && r[k] in candidates
    {
      assert r[k] in Dedup(f);
      assert r[k] in f;
    }
  }

  // ---------------------------------------------------------------------------
  // `_clean_single_document` and `clean_documents`
  // ---------------------------------------------------------------------------

  /** `doc.id or doc.filename`: the id when present and non-empty, else the filename. */
  function OriginalId(doc: FeedbackDocument): string {
    if doc.id.Some? && doc.id.value != [] then doc.id.value else doc.filename
  }

  const BasicCleaningNote := "Applied basic text cleaning"
  const DuplicatesNote := "Removed duplicate content"

  function EntitiesNote(entityCount: nat): string {
    "Extracted " + NatToString(entityCount) + " entities"
  }

  /** The notes `_clean_single_document` records, in order. */
  function CleaningNotes(lengthChanged: bool, entityCount: nat): seq<string> {
    (if lengthChanged then [BasicCleaningNote] else []) + [DuplicatesNote] + [EntitiesNote(entityCount)]
  }

  /**
   * The cleaned document for `doc`, given the regular-expression passes:
   * `basicClean` is `_basic_text_cleaning` and `entityCandidates` lists the
   * matches of the entity patterns, in the order they are collected.
   */
  function CleanedOf(doc: FeedbackDocument, basicClean: string -> string,
                     entityCandidates: string -> seq<string>): CleanedDocument
  {
    var basic := basicClean(doc.content);
    var cleaned := Deduplicated(basic);
    var entities := ExtractEntities(entityCandidates(cleaned));
    CleanedDocument(
      OriginalId(doc), cleaned, entities, CleaningLanguage(cleaned), |Words(cleaned)|,
      QualityScore(cleaned, doc.content), CleaningNotes(|basic| != |doc.content|, |entities|))
  }

  /** `_clean_single_document`: the cleaning steps in order, recording a note after each. */
  method CleanSingleDocument(doc: FeedbackDocument, basicClean: string -> string,
                             entityCandidates: string -> seq<string>)
    returns (result: CleanedDocument)
    ensures result.originalId == OriginalId(doc)
    ensures result.cleanedContent == Deduplicated(basicClean(doc.content))
    ensures result.extractedEntities == ExtractEntities(entityCandidates(result.cleanedContent))
    ensures result.language == CleaningLanguage(result.cleanedContent)
    ensures result.wordCount == |Words(result.cleanedContent)|
    ensures result.qualityScore == QualityScore(result.cleanedContent, doc.content)
    ensures result.preprocessingNotes
            == CleaningNotes(|basicClean(doc.content)| != |doc.content|, |result.extractedEntities|)
  {
    var notes: seq<string> := [];
    var originalLength := |doc.content|;
    var cleaned := basicClean(doc.content);
    if |cleaned| != originalLength {
      notes := notes + [BasicCleaningNote];
    }
    ghost var firstNotes := notes;
    assert firstNotes == if |cleaned| != originalLength then [BasicCleaningNote] else [];
    cleaned := RemoveDuplicates(cleaned);
    notes := notes + [DuplicatesNote];
    var entities := ExtractEntities(entityCandidates(cleaned));
    notes := notes + [EntitiesNote(|entities|)];
    assert notes == firstNotes + [DuplicatesNote] + [EntitiesNote(|entities|)];
    var quality := CalculateQualityScore(cleaned, doc.content);
    var language := CleaningLanguage(cleaned);
    var wordCount := |Words(cleaned)|;
    result := CleanedDocument(OriginalId(doc), cleaned, entities, language, wordCount, quality, notes);
  }

  /** A document whose every field is the one `CleanedOf` gives is that document. */
  lemma CleanedOfFields(doc: FeedbackDocument, basicClean: string -> string,
                        entityCandidates: string -> seq<string>, r: CleanedDocument)
    requires r.originalId == OriginalId(doc)
    requires r.cleanedContent == Deduplicated(basicClean(doc.content))
    requires r.extractedEntities == ExtractEntities(entityCandidates(r.cleanedContent))
    requires r.language == CleaningLanguage(r.cleanedContent)
    requires r.wordCount == |Words(r.cleanedContent)|
    requires r.qualityScore == QualityScore(r.cleanedContent, doc.content)
    requires r.preprocessingNotes
             == CleaningNotes(|basicClean(doc.content)| != |doc.content|, |r.extractedEntities|)
    ensures r == CleanedOf(doc, basicClean, entityCandidates)
  {
  }

  /**
   * The notes record what happened: the basic-cleaning note exactly when the
   * length changed, always the de-duplication note, and last the entity count.
   */
  lemma CleaningNotesRecord(lengthChanged: bool, entityCount: nat)
    ensures var notes := CleaningNotes(lengthChanged, entityCount);
            (BasicCleaningNote in notes <==> lengthChanged)
            && DuplicatesNote in notes
            && notes[|notes| - 1] == EntitiesNote(entityCount)
            && |notes| == if lengthChanged then 3 else 2
  {
    assert BasicCleaningNote[0] == 'A' != EntitiesNote(entityCount)[0];
    assert BasicCleaningNote[0] != DuplicatesNote[0];
  }

  /** `_clean_single_document` as one value: the document `CleanedOf` describes. */
  method CleanOne(doc: FeedbackDocument, basicClean: string -> string,
                  entityCandidates: string -> seq<string>)
    returns (result: CleanedDocument)
    ensures result == CleanedOf(doc, basicClean, entityCandidates)
  {
    result := CleanSingleDocument(doc, basicClean, entityCandidates);
    CleanedOfFields(doc, basicClean, entityCandidates, result);
  }

  /** `clean_documents`: one cleaned document per input, in input order. */
  method CleanDocuments(documents: seq<FeedbackDocument>, basicClean: string -> string,
                        entityCandidates: string -> seq<string>)
    returns (cleaned: seq<CleanedDocument>)
    ensures cleaned == MapSeq(documents, (d: FeedbackDocument) => CleanedOf(d, basicClean, entityCandidates))
  {
    ghost var clean := (d: FeedbackDocument) => CleanedOf(d, basicClean, entityCandidates);
    cleaned := [];
    var i := 0;
    while i < |documents|
      invariant 0 <= i <= |documents|
      invariant cleaned == MapSeq(documents[..i], clean)
    {
      var c := CleanOne(documents[i], basicClean, entityCandidates);
      MapSeqStep(documents, i, clean);
      cleaned := cleaned + [c];
      i := i + 1;
    }
    assert documents[..i] == documents;
  }
}
