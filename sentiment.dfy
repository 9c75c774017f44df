/**
 * The sentiment stage: three scorers (a lexicon with negation and
 * intensifiers, weighted phrase patterns, and per-sentence cues), their
 * 0.4/0.3/0.3 combination, and the thresholds that turn a score into a
 * sentiment class.  Regular-expression matching is an input: the number of
 * matches of each phrase pattern, the cues found in each sentence, and the
 * key-phrase and emotion matches, in the order they are collected.
 */
module Sentiment {
  import opened Wrappers
  import opened Text
  import opened Collections
  import opened Models
  import Arith

  // ---------------------------------------------------------------------------
  // Lexicons
  // ---------------------------------------------------------------------------

  const PositiveWords: set<string> := {
    "excellent", "outstanding", "exceptional", "superior", "effective",
    "efficient", "successful", "improved", "enhanced", "optimized",
    "beneficial", "valuable", "useful", "helpful", "positive",
    "good", "great", "amazing", "wonderful", "fantastic",
    "recommend", "commend", "praise", "appreciate", "satisfied",
    "pleased", "impressed", "delighted", "thrilled", "excited",
    "innovative", "creative", "brilliant", "smart", "clever",
    "professional", "competent", "skilled", "experienced", "qualified"
  }

  const NegativeWords: set<string> := {
    "poor", "bad", "terrible", "awful", "horrible", "disappointing",
    "ineffective", "inefficient", "problematic", "concerning", "worrying",
    "inadequate", "insufficient", "lacking", "missing", "absent",
    "failed", "failure", "error", "mistake", "issue", "problem",
    "difficulty", "challenge", "obstacle", "barrier", "limitation",
    "frustrated", "annoyed", "disappointed", "concerned", "worried",
    "critical", "negative", "unsatisfactory", "unacceptable", "substandard",
    "deficient", "flawed", "broken", "damaged", "corrupted"
  }

  const NeutralWords: set<string> := {
    "standard", "normal", "average", "typical", "regular", "routine",
    "acceptable", "adequate", "sufficient", "reasonable", "fair",
    "moderate", "balanced", "neutral", "objective", "factual",
    "informational", "descriptive", "explanatory", "procedural"
  }

  const Intensifiers: map<string, real> := map[
    "very" := 1.5, "extremely" := 2.0, "highly" := 1.8, "incredibly" := 2.0,
    "absolutely" := 2.0, "completely" := 1.8, "totally" := 1.8, "quite" := 1.3,
    "rather" := 1.2, "somewhat" := 0.8, "slightly" := 0.6, "barely" := 0.4
  ]

  const Negators: set<string> := {"not", "no", "never", "none", "nothing", "neither", "nor"}

  /** The agent's word lists and intensity table. */
  datatype Lexicon = Lexicon(
    positive: set<string>, negative: set<string>, neutral: set<string>,
    intensifiers: map<string, real>, negators: set<string>)
  {
    /** Intensity factors are positive and at most 2, and no negator is an intensifier. */
    predicate Valid() {
      (forall w :: w in intensifiers ==> 0.0 < intensifiers[w] <= 2.0)
      && (forall w :: w in negators ==> w !in intensifiers)
    }
  }

  const AgentLexicon := Lexicon(PositiveWords, NegativeWords, NeutralWords, Intensifiers, Negators)

  /** Every intensity factor of the agent lies in [0.4, 2]. */
  lemma IntensifierFactors()
    ensures forall w :: w in Intensifiers ==> 0.4 <= Intensifiers[w] <= 2.0
  {
  }

  /** No negator of the agent is an intensifier, so a token is never both negated and intensified. */
  lemma NegatorNotIntensifier(w: string)
    requires w in Negators
    ensures w !in Intensifiers
  {
  }

  lemma AgentLexiconValid()
    ensures AgentLexicon.Valid()
  {
    IntensifierFactors();
    forall w | w in Negators
      ensures w !in Intensifiers
    {
      NegatorNotIntensifier(w);
    }
  }

  /** The tokens of the not-clamped example: an intensifier outside every word list, and a positive word. */
  lemma ExampleTokens()
    ensures "extremely" !in PositiveWords && "extremely" !in NegativeWords && "extremely" !in NeutralWords
    ensures "extremely" in Intensifiers && Intensifiers["extremely"] == 2.0 && "extremely" !in Negators
    ensures "good" in PositiveWords
  {
    assert "extremely" !in PositiveWords;
    assert "extremely" !in NegativeWords;
    assert "extremely" !in NeutralWords;
  }

  // ---------------------------------------------------------------------------
  // `_lexicon_based_analysis`
  // ---------------------------------------------------------------------------

  datatype Polarity = Pos | Neg | Neu | NoHit

  /** Which word list a token belongs to, looked up in the positive list first, then the negative, then the neutral. */
  function PolarityOf(lex: Lexicon, w: string): (p: Polarity)
    ensures p == Pos <==> w in lex.positive
    ensures p == Neg <==> w !in lex.positive && w in lex.negative
    ensures p == Neu <==> w !in lex.positive && w !in lex.negative && w in lex.neutral
  {
    if w in lex.positive then Pos
    else if w in lex.negative then Neg
    else if w in lex.neutral then Neu
    else NoHit
  }

  /** The factor the token before position `i` applies, 1 when it is not an intensifier. */
  function Intensity(lex: Lexicon, words: seq<string>, i: nat): (f: real)
    requires lex.Valid() && i < |words|
    ensures 0.0 < f <= 2.0
  {
    if i > 0 && words[i - 1] in lex.intensifiers then lex.intensifiers[words[i - 1]] else 1.0
  }

  predicate Negated(lex: Lexicon, words: seq<string>, i: nat)
    requires i < |words|
  {
    i > 0 && words[i - 1] in lex.negators
  }

  /** The signed weight of a polar token: its intensity, with the sign flipped after a negator. */
  function Signed(lex: Lexicon, words: seq<string>, i: nat): (s: real)
    requires lex.Valid() && i < |words|
    ensures -2.0 <= s <= 2.0
  {
    var sign := if PolarityOf(lex, words[i]) == Pos then 1.0 else -1.0;
    Intensity(lex, words, i) * (if Negated(lex, words, i) then -sign else sign)
  }

  /** The four counters of the lexicon loop. */
  datatype LexiconTally = LexiconTally(positive: real, negative: real, neutral: nat, hits: nat)

  /** The counters after the loop has looked at the first `n` tokens. */
  function Tally(lex: Lexicon, words: seq<string>, n: nat): LexiconTally
    requires lex.Valid() && n <= |words|
  {
    if n == 0 then LexiconTally(0.0, 0.0, 0, 0)
    else
      var t := Tally(lex, words, n - 1);
      var i := n - 1;
      match PolarityOf(lex, words[i])
      case Pos | Neg =>
        var s := Signed(lex, words, i);
        LexiconTally(t.positive + (if s > 0.0 then s else 0.0),
                     t.negative + (if -s > 0.0 then -s else 0.0), t.neutral, t.hits + 1)
      case Neu => LexiconTally(t.positive, t.negative, t.neutral + 1, t.hits + 1)
      case NoHit => t
  }

  /** A score and its confidence, as each scorer returns them. */
  datatype Scored = Scored(score: real, confidence: real)

  /** What the lexicon scorer returns for the `\b\w+\b` tokens of the text. */
  function LexiconResult(lex: Lexicon, words: seq<string>): Scored
    requires lex.Valid()
  {
    var t := Tally(lex, words, |words|);
    if words == [] || t.hits == 0 then Scored(0.0, 0.0)
    else
      var density := (t.hits as real) / (|words| as real);
      Scored((t.positive - t.negative) / (t.hits as real), if density < 1.0 then density else 1.0)
  }

  /** `_lexicon_based_analysis`: one pass over the tokens, updating the counters. */
  method LexiconAnalysis(lex: Lexicon, words: seq<string>) returns (result: Scored)
    requires lex.Valid()
    ensures result == LexiconResult(lex, words)
  {
    if words == [] {
      return Scored(0.0, 0.0);
    }
    var positive := 0.0;
    var negative := 0.0;
    var neutral := 0;
    var hits := 0;
    var i := 0;
    while i < |words|
      invariant 0 <= i <= |words|
      invariant Tally(lex, words, i) == LexiconTally(positive, negative, neutral, hits)
    {
      var word := words[i];
      var negated := false;
      if i > 0 && words[i - 1] in lex.negators {
        negated := true;
      }
      var intensity := 1.0;
      if i > 0 && words[i - 1] in lex.intensifiers {
        intensity := lex.intensifiers[words[i - 1]];
      }
      if word in lex.positive {
        var score := intensity * (if !negated then 1.0 else -1.0);
        positive := positive + (if score > 0.0 then score else 0.0);
        negative := negative + (if -score > 0.0 then -score else 0.0);
        hits := hits + 1;
      } else if word in lex.negative {
        var score := intensity * (if !negated then -1.0 else 1.0);
        positive := positive + (if score > 0.0 then score else 0.0);
        negative := negative + (if -score > 0.0 then -score else 0.0);
        hits := hits + 1;
      } else if word in lex.neutral {
        neutral := neutral + 1;
        hits := hits + 1;
      }
      i := i + 1;
    }
    if hits == 0 {
      return Scored(0.0, 0.0);
    }
    var density := (hits as real) / (|words| as real);
    result := Scored((positive - negative) / (hits as real), if density < 1.0 then density else 1.0);
  }

  /** Each polar token adds at most 2 to the two counters together; neutral tokens add nothing. */
  lemma {:induction false} TallyBounds(lex: Lexicon, words: seq<string>, n: nat)
    requires lex.Valid() && n <= |words|
    ensures var t := Tally(lex, words, n);
            0.0 <= t.positive && 0.0 <= t.negative
            && t.positive + t.negative <= 2.0 * (t.hits as real)
            && t.hits <= n
  {
    if n > 0 {
      TallyBounds(lex, words, n - 1);
    }
  }

  /**
   * No tokens or no lexicon hits give (0, 0); otherwise the confidence is the
   * hit density, in (0, 1], and the score lies in [-2, 2]: it is not clamped
   * to [-1, 1].
   */
  lemma LexiconBounds(lex: Lexicon, words: seq<string>)
    requires lex.Valid()
    ensures var r := LexiconResult(lex, words);
            -2.0 <= r.score <= 2.0 && 0.0 <= r.confidence <= 1.0
            && (Tally(lex, words, |words|).hits == 0 ==> r == Scored(0.0, 0.0))
  {
    var t := Tally(lex, words, |words|);
    TallyBounds(lex, words, |words|);
    if words != [] && t.hits != 0 {
      var h := t.hits as real;
      Arith.RatioAtMost(t.positive - t.negative, h, 2.0);
      Arith.RatioAtLeast(t.positive - t.negative, h, -2.0);
      Arith.RatioUnit(h, |words| as real);
    }
  }

  /** "extremely good" scores 2.0: an intensified word alone exceeds the [-1, 1] range. */
  lemma LexiconNotClamped()
    ensures AgentLexicon.Valid()
    ensures LexiconResult(AgentLexicon, ["extremely", "good"]) == Scored(2.0, 0.5)
  {
    AgentLexiconValid();
    ExampleTokens();
    var words := ["extremely", "good"];
    assert PolarityOf(AgentLexicon, words[0]) == NoHit;
    assert PolarityOf(AgentLexicon, words[1]) == Pos;
    assert Tally(AgentLexicon, words, 1) == LexiconTally(0.0, 0.0, 0, 0);
    assert Intensity(AgentLexicon, words, 1) == 2.0;
    assert !Negated(AgentLexicon, words, 1);
  }

  /** A negator right before a polar token flips its sign; it is never also intensified. */
  lemma NegationFlips(lex: Lexicon, words: seq<string>, i: nat)
    requires lex.Valid() && 0 < i < |words| && words[i - 1] in lex.negators
    requires PolarityOf(lex, words[i]) == Pos || PolarityOf(lex, words[i]) == Neg
    ensures Signed(lex, words, i) == if PolarityOf(lex, words[i]) == Pos then -1.0 else 1.0
  {
  }

  /** An intensifier right before a polar token scales it by the intensifier's factor. */
  lemma IntensifierScales(lex: Lexicon, words: seq<string>, i: nat)
    requires lex.Valid() && 0 < i < |words| && words[i - 1] in lex.intensifiers
    requires PolarityOf(lex, words[i]) == Pos || PolarityOf(lex, words[i]) == Neg
    ensures Signed(lex, words, i)
            == if PolarityOf(lex, words[i]) == Pos then lex.intensifiers[words[i - 1]]
               else -lex.intensifiers[words[i - 1]]
  {
  }

  // ---------------------------------------------------------------------------
  // `_pattern_based_analysis`
  // ---------------------------------------------------------------------------

  /** The number of matches of each positive, negative and neutral phrase pattern. */
  datatype PatternMatches = PatternMatches(positive: seq<nat>, negative: seq<nat>, neutral: seq<nat>)

  function Clamp(x: real): (r: real)
    ensures -1.0 <= r <= 1.0
    ensures -1.0 <= x <= 1.0 ==> r == x
  {
    if x < -1.0 then -1.0 else if x > 1.0 then 1.0 else x
  }

  /** What the pattern scorer returns when `p`, `n` and `u` positive, negative and neutral matches were found. */
  function PatternResult(p: nat, n: nat, u: nat): Scored {
    var count := p + n + u;
    if count == 0 then Scored(0.0, 0.0)
    else
      var ratio := (count as real) / 10.0;
      Scored(Clamp((0.8 * (p as real) - 0.8 * (n as real)) / (count as real)),
             if ratio < 1.0 then ratio else 1.0)
  }

  /** `_pattern_based_analysis`: ±0.8 per polar match, averaged over all matches. */
  method PatternAnalysis(m: PatternMatches) returns (result: Scored)
    ensures result == PatternResult(SumNat(m.positive), SumNat(m.negative), SumNat(m.neutral))
  {
    var score := 0.0;
    var count := 0;
    var k := 0;
    while k < |m.positive|
      invariant 0 <= k <= |m.positive|
      invariant count == SumNat(m.positive[..k]) && score == 0.8 * (count as real)
    {
      SumNatStep(m.positive, k);
      score := score + (m.positive[k] as real) * 0.8;
      count := count + m.positive[k];
      k := k + 1;
    }
    assert m.positive[..k] == m.positive;
    var p := count;
    k := 0;
    while k < |m.negative|
      invariant 0 <= k <= |m.negative|
      invariant count == p + SumNat(m.negative[..k])
      invariant score == 0.8 * (p as real) - 0.8 * (SumNat(m.negative[..k]) as real)
    {
      SumNatStep(m.negative, k);
      score := score - (m.negative[k] as real) * 0.8;
      count := count + m.negative[k];
      k := k + 1;
    }
    assert m.negative[..k] == m.negative;
    var pn := count;
    k := 0;
    while k < |m.neutral|
      invariant 0 <= k <= |m.neutral|
      invariant count == pn + SumNat(m.neutral[..k])
    {
      SumNatStep(m.neutral, k);
      count := count + m.neutral[k];
      k := k + 1;
    }
    assert m.neutral[..k] == m.neutral;
    var confidence := 0.0;
    if count > 0 {
      score := score / (count as real);
      var ratio := (count as real) / 10.0;
      confidence := if ratio < 1.0 then ratio else 1.0;
    }
    result := Scored(Clamp(score), confidence);
  }

  /**
   * No matches give (0, 0).  Otherwise the score lies in [-0.8, 0.8], so the
   * clamp to [-1, 1] never changes it, and the confidence is min(count / 10, 1),
   * reaching 1 from ten matches on.
   */
  lemma PatternBounds(p: nat, n: nat, u: nat)
    ensures var r := PatternResult(p, n, u);
            -0.8 <= r.score <= 0.8 && 0.0 <= r.confidence <= 1.0
            && (p + n + u == 0 ==> r == Scored(0.0, 0.0))
            && (p + n + u > 0 ==> r.confidence > 0.0 && (r.confidence == 1.0 <==> p + n + u >= 10))
            && (p + n + u > 0 ==> r.score == (0.8 * (p as real) - 0.8 * (n as real)) / ((p + n + u) as real))
  {
    var count := p + n + u;
    if count > 0 {
      var c := count as real;
      var raw := 0.8 * (p as real) - 0.8 * (n as real);
      Arith.RatioAtMost(raw, c, 0.8);
      Arith.RatioAtLeast(raw, c, -0.8);
    }
  }

  // ---------------------------------------------------------------------------
  // `_context_aware_analysis`
  // ---------------------------------------------------------------------------

  /** The cue words a sentence contains, one flag per `re.search` of the context scorer. */
  datatype SentenceCues = SentenceCues(
    conditional: bool,   // if / unless / provided / assuming
    comparative: bool,   // better / worse / more / less / compared / versus
    upward: bool,        // better / more / improved / enhanced
    downward: bool,      // worse / less / declined / degraded
    past: bool,          // previously / before / used to
    present: bool,       // now / currently / recently
    certain: bool,       // clearly / obviously / definitely / certainly
    hedged: bool)        // maybe / perhaps / possibly / might

  predicate EndsWithQuestion(s: string) { s != [] && s[|s| - 1] == '?' }

  /** The score of one stripped sentence: the sum of the adjustments its cues call for. */
  function SentenceScore(s: string, c: SentenceCues): real {
    (if EndsWithQuestion(s) then -0.1 else 0.0)
    + (if c.conditional then -0.2 else 0.0)
    + (if c.comparative then (if c.upward then 0.3 else if c.downward then -0.3 else 0.0) else 0.0)
    + (if c.past then -0.1 else if c.present then 0.1 else 0.0)
    + (if c.certain then 0.2 else if c.hedged then -0.1 else 0.0)
  }

  /** `sentence_score` built up one cue at a time. */
  method ScoreSentence(s: string, c: SentenceCues) returns (score: real)
    ensures score == SentenceScore(s, c)
  {
    score := 0.0;
    if EndsWithQuestion(s) {
      score := score - 0.1;
    }
    if c.conditional {
      score := score - 0.2;
    }
    if c.comparative {
      if c.upward {
        score := score + 0.3;
      } else if c.downward {
        score := score - 0.3;
      }
    }
    if c.past {
      score := score - 0.1;
    } else if c.present {
      score := score + 0.1;
    }
    if c.certain {
      score := score + 0.2;
    } else if c.hedged {
      score := score - 0.1;
    }
  }

  /** The sentence scores for the first `n` fragments: fragments shorter than 5 after stripping are skipped. */
  function ContextScores(pieces: seq<string>, cues: string -> SentenceCues, n: nat): (r: seq<real>)
    requires n <= |pieces|
    ensures |r| <= n
  {
    if n == 0 then []
    else
      var s := Strip(pieces[n - 1]);
      ContextScores(pieces, cues, n - 1) + (if |s| < 5 then [] else [SentenceScore(s, cues(s))])
  }

  /** What the context scorer returns for the scores of its sentences. */
  function ContextResult(scores: seq<real>): Scored {
    if scores == [] then Scored(0.0, 0.0)
    else
      var n := |scores| as real;
      Scored(Clamp(SumReal(scores) / n), if n / 5.0 < 1.0 then n / 5.0 else 1.0)
  }

  /** `_context_aware_analysis` on the fragments of `re.split(r'[.!?]+', content)`. */
  method ContextAnalysis(content: string, cues: string -> SentenceCues) returns (result: Scored)
    ensures var pieces := SplitTerminal(content);
            result == ContextResult(ContextScores(pieces, cues, |pieces|))
  {
    var pieces := SplitTerminal(content);
    var scores: seq<real> := [];
    var i := 0;
    while i < |pieces|
      invariant 0 <= i <= |pieces|
      invariant scores == ContextScores(pieces, cues, i)
    {
      var sentence := Strip(pieces[i]);
      if |sentence| >= 5 {
        var score := ScoreSentence(sentence, cues(sentence));
        scores := scores + [score];
      }
      i := i + 1;
    }
    if scores == [] {
      return Scored(0.0, 0.0);
    }
    var n := |scores| as real;
    result := Scored(Clamp(SumReal(scores) / n), if n / 5.0 < 1.0 then n / 5.0 else 1.0);
  }

  /**
   * The fragments contain no '.', '!' or '?', so no stripped sentence ends with
   * '?' and the question penalty never applies.
   */
  lemma QuestionPenaltyNeverApplies(content: string, i: nat)
    requires i < |SplitTerminal(content)|
    ensures !EndsWithQuestion(Strip(SplitTerminal(content)[i]))
  {
    StripNoTerminal(SplitTerminal(content)[i]);
  }

  /** Without the question penalty a sentence scores between -0.7 and 0.6. */
  lemma SentenceScoreBounds(s: string, c: SentenceCues)
    requires !EndsWithQuestion(s)
    ensures -0.7 <= SentenceScore(s, c) <= 0.6
  {
  }

  lemma {:induction false} ContextScoresBounds(pieces: seq<string>, cues: string -> SentenceCues, n: nat)
    requires n <= |pieces|
    requires forall k :: 0 <= k < |pieces| ==> NoTerminal(pieces[k])
    ensures forall k :: 0 <= k < |ContextScores(pieces, cues, n)| ==>
              -0.7 <= ContextScores(pieces, cues, n)[k] <= 0.6
  {
    if n > 0 {
      ContextScoresBounds(pieces, cues, n - 1);
      var s := Strip(pieces[n - 1]);
      StripNoTerminal(pieces[n - 1]);
      SentenceScoreBounds(s, cues(s));
    }
  }

  /** Scores in [-0.7, 0.6] average to a value in the same range, which the clamp leaves alone. */
  lemma ContextResultBounds(scores: seq<real>)
    requires forall k :: 0 <= k < |scores| ==> -0.7 <= scores[k] <= 0.6
    ensures var r := ContextResult(scores);
            -0.7 <= r.score <= 0.6 && 0.0 <= r.confidence <= 1.0
            && (scores == [] ==> r == Scored(0.0, 0.0))
            && (scores != [] ==> r.score == SumReal(scores) / (|scores| as real))
  {
    if scores != [] {
      var n := |scores| as real;
      SumRealBounds(scores, -0.7, 0.6);
      Arith.RatioAtMost(SumReal(scores), n, 0.6);
      Arith.RatioAtLeast(SumReal(scores), n, -0.7);
    }
  }

  /**
   * No sentence of 5 or more characters gives (0, 0).  Otherwise the score is
   * the mean sentence score, in [-0.7, 0.6] so never clamped, and the
   * confidence is min(n / 5, 1).
   */
  lemma ContextBounds(content: string, cues: string -> SentenceCues)
    ensures var pieces := SplitTerminal(content);
            var scores := ContextScores(pieces, cues, |pieces|);
            var r := ContextResult(scores);
            -0.7 <= r.score <= 0.6 && 0.0 <= r.confidence <= 1.0
            && (scores == [] ==> r == Scored(0.0, 0.0))
            && (scores != [] ==> r.score == SumReal(scores) / (|scores| as real))
  {
    var pieces := SplitTerminal(content);
    ContextScoresBounds(pieces, cues, |pieces|);
    ContextResultBounds(ContextScores(pieces, cues, |pieces|));
  }

  // ---------------------------------------------------------------------------
  // Combination and classification
  // ---------------------------------------------------------------------------

  /** The 0.4 / 0.3 / 0.3 weighted sum of the three scorers, for the scores and for the confidences. */
  function Combine(lexicon: Scored, pattern: Scored, context: Scored): Scored {
    Scored(0.4 * lexicon.score + 0.3 * pattern.score + 0.3 * context.score,
           0.4 * lexicon.confidence + 0.3 * pattern.confidence + 0.3 * context.confidence)
  }

  /** Weighted sums of scores in the scorers' ranges: a confidence in [0, 1] and a score in [-1.25, 1.22]. */
  lemma CombineBounds(lexicon: Scored, pattern: Scored, context: Scored)
    requires -2.0 <= lexicon.score <= 2.0 && -0.8 <= pattern.score <= 0.8 && -0.7 <= context.score <= 0.6
    requires 0.0 <= lexicon.confidence <= 1.0 && 0.0 <= pattern.confidence <= 1.0
    requires 0.0 <= context.confidence <= 1.0
    ensures var r := Combine(lexicon, pattern, context);
            0.0 <= r.confidence <= 1.0 && -1.25 <= r.score <= 1.22
  {
  }

  /** `round(x, 3)`, with halves rounded up. */
  function Round3(x: real): (r: real)
    ensures x - 0.0005 < r <= x + 0.0005
  {
    ((x * 1000.0 + 0.5).Floor as real) / 1000.0
  }

  /** Rounding keeps [-1, 1] and [0, 1]: only values beyond them can round out of them. */
  lemma Round3Range(x: real)
    ensures -1.0 <= x <= 1.0 ==> -1.0 <= Round3(x) <= 1.0
    ensures 0.0 <= x <= 1.0 ==> 0.0 <= Round3(x) <= 1.0
  {
    var k := (x * 1000.0 + 0.5).Floor;
    if -1.0 <= x <= 1.0 {
      assert -1000 <= k <= 1000;
    }
  }

  /** `_score_to_sentiment_type`. */
  function ScoreToSentimentType(score: real): (t: SentimentType)
    ensures t == Positive <==> score > 0.1
    ensures t == Negative <==> score < -0.1
    ensures t == Neutral <==> -0.1 <= score <= 0.1
    ensures t != Mixed
  {
    if score > 0.1 then Positive
    else if score < -0.1 then Negative
    else if (if score < 0.0 then -score else score) <= 0.1 then Neutral
    else Mixed
  }

  // ---------------------------------------------------------------------------
  // Key phrases and emotional indicators
  // ---------------------------------------------------------------------------

  /** `list(set(matches))[:20]`, the set kept in first-occurrence order. */
  function KeyPhrases(matches: seq<string>): (r: seq<string>)
    ensures Distinct(r) && |r| <= 20
    ensures forall k :: 0 <= k < |r| ==> r[k] in matches
    ensures |Dedup(matches)| <= 20 ==> forall k :: 0 <= k < |matches| ==> matches[k] in r
  {
    TakeDistinct(Dedup(matches), 20);
    Take(Dedup(matches), 20)
  }

  /** `list(set(matches))`. */
  function EmotionalIndicators(matches: seq<string>): (r: seq<string>)
    ensures Distinct(r)
    ensures forall k :: 0 <= k < |r| ==> r[k] in matches
    ensures forall k :: 0 <= k < |matches| ==> matches[k] in r
  {
    Dedup(matches)
  }

  // ---------------------------------------------------------------------------
  // `_analyze_single_document` and `analyze_sentiment`
  // ---------------------------------------------------------------------------

  /** The regular-expression matches the sentiment stage needs, as functions of the text. */
  datatype Matchers = Matchers(
    patterns: string -> PatternMatches,
    cues: string -> SentenceCues,
    phrases: string -> seq<string>,
    emotions: string -> seq<string>)

  function Breakdown(lexicon: Scored, pattern: Scored, context: Scored): map<string, real> {
    map["lexicon_score" := lexicon.score, "pattern_score" := pattern.score,
        "context_score" := context.score, "lexicon_confidence" := lexicon.confidence,
        "pattern_confidence" := pattern.confidence, "context_confidence" := context.confidence]
  }

  /** The three scorers' results on the lower-cased text of `doc`. */
  function ScorersOf(doc: CleanedDocument, m: Matchers): (Scored, Scored, Scored) {
    AgentLexiconValid();
    var content := Lower(doc.cleanedContent);
    var pm := m.patterns(content);
    var pieces := SplitTerminal(content);
    (LexiconResult(AgentLexicon, WordTokens(content)),
     PatternResult(SumNat(pm.positive), SumNat(pm.negative), SumNat(pm.neutral)),
     ContextResult(ContextScores(pieces, m.cues, |pieces|)))
  }

  /** The result for `doc` given its scorers' results, or None when validation rejects the rounded score. */
  function AnalysisFrom(doc: CleanedDocument, m: Matchers, lexicon: Scored, pattern: Scored, context: Scored)
    : Option<SentimentAnalysis>
  {
    var overall := Combine(lexicon, pattern, context);
    MakeSentimentAnalysis(
      doc.originalId, ScoreToSentimentType(overall.score), Round3(overall.score), Round3(overall.confidence),
      Breakdown(lexicon, pattern, context),
      KeyPhrases(m.phrases(doc.cleanedContent)), EmotionalIndicators(m.emotions(doc.cleanedContent)))
  }

  /** What `_analyze_single_document` yields for `doc`: a result, or None where it raises. */
  function AnalysisOf(doc: CleanedDocument, m: Matchers): Option<SentimentAnalysis> {
    var s := ScorersOf(doc, m);
    AnalysisFrom(doc, m, s.0, s.1, s.2)
  }

  /**
   * A result carries the document's id, a class that is never `Mixed` and
   * agrees with the unrounded score, the rounded confidence, and distinct key
   * phrases (at most 20) and indicators.  It is missing exactly when the
   * rounded combined score leaves [-1, 1]; the confidence never does.
   */
  lemma AnalysisFromSpec(doc: CleanedDocument, m: Matchers, lexicon: Scored, pattern: Scored, context: Scored)
    requires -2.0 <= lexicon.score <= 2.0 && -0.8 <= pattern.score <= 0.8 && -0.7 <= context.score <= 0.6
    requires 0.0 <= lexicon.confidence <= 1.0 && 0.0 <= pattern.confidence <= 1.0
    requires 0.0 <= context.confidence <= 1.0
    ensures var overall := Combine(lexicon, pattern, context);
            var r := AnalysisFrom(doc, m, lexicon, pattern, context);
            (r.Some? <==> -1.0 <= Round3(overall.score) <= 1.0)
            && (r.Some? ==>
                  r.value.documentId == doc.originalId
                  && r.value.overallSentiment == ScoreToSentimentType(overall.score)
                  && r.value.overallSentiment != Mixed
                  && r.value.sentimentScore == Round3(overall.score)
                  && r.value.confidence == Round3(overall.confidence)
                  && Distinct(r.value.keyPhrases) && |r.value.keyPhrases| <= 20
                  && Distinct(r.value.emotionalIndicators))
  {
    var overall := Combine(lexicon, pattern, context);
    CombineBounds(lexicon, pattern, context);
    Round3Range(overall.confidence);
  }

  /** The scorers' results always lie in the ranges `AnalysisFromSpec` needs. */
  lemma ScorersInRange(doc: CleanedDocument, m: Matchers)
    ensures var s := ScorersOf(doc, m);
            -2.0 <= s.0.score <= 2.0 && -0.8 <= s.1.score <= 0.8 && -0.7 <= s.2.score <= 0.6
            && 0.0 <= s.0.confidence <= 1.0 && 0.0 <= s.1.confidence <= 1.0 && 0.0 <= s.2.confidence <= 1.0
  {
    var content := Lower(doc.cleanedContent);
    var pm := m.patterns(content);
    AgentLexiconValid();
    LexiconBounds(AgentLexicon, WordTokens(content));
    PatternBounds(SumNat(pm.positive), SumNat(pm.negative), SumNat(pm.neutral));
    ContextBounds(content, m.cues);
  }

  /**
   * A document's result is missing exactly when its rounded combined score
   * leaves [-1, 1]; otherwise it carries the document's id, a class other
   * than `Mixed`, and a confidence in [0, 1].
   */
  lemma AnalysisOfSpec(doc: CleanedDocument, m: Matchers)
    ensures var s := ScorersOf(doc, m);
            var overall := Combine(s.0, s.1, s.2);
            var r := AnalysisOf(doc, m);
            (r.Some? <==> -1.0 <= Round3(overall.score) <= 1.0)
            && (r.Some? ==> r.value.documentId == doc.originalId && r.value.overallSentiment != Mixed
                            && r.value.overallSentiment == ScoreToSentimentType(overall.score))
  {
    var s := ScorersOf(doc, m);
    ScorersInRange(doc, m);
    AnalysisFromSpec(doc, m, s.0, s.1, s.2);
  }

  /**
   * A document can be dropped: a lexicon score of 2.0 with one positive
   * pattern match and a neutral context combines to 1.04, which validation
   * rejects.
   */
  lemma DroppedWitness(doc: CleanedDocument, m: Matchers)
    ensures AgentLexicon.Valid()
    ensures AnalysisFrom(doc, m, LexiconResult(AgentLexicon, ["extremely", "good"]), PatternResult(1, 0, 0),
                         Scored(0.0, 0.2)) == None
  {
    LexiconNotClamped();
    assert PatternResult(1, 0, 0) == Scored(0.8, 0.1);
    assert Combine(Scored(2.0, 0.5), Scored(0.8, 0.1), Scored(0.0, 0.2)).score == 1.04;
    assert (1.04 * 1000.0 + 0.5).Floor == 1040;
  }

  /** `_analyze_single_document`: run the three scorers, combine, classify and validate. */
  method AnalyzeSingleDocument(doc: CleanedDocument, m: Matchers) returns (r: Option<SentimentAnalysis>)
    ensures r == AnalysisOf(doc, m)
  {
    var content := Lower(doc.cleanedContent);
    AgentLexiconValid();
    var lexicon := LexiconAnalysis(AgentLexicon, WordTokens(content));
    var pattern := PatternAnalysis(m.patterns(content));
    var context := ContextAnalysis(content, m.cues);
    var overall := Combine(lexicon, pattern, context);
    var sentimentType := ScoreToSentimentType(overall.score);
    var keyPhrases := KeyPhrases(m.phrases(doc.cleanedContent));
    var indicators := EmotionalIndicators(m.emotions(doc.cleanedContent));
    r := MakeSentimentAnalysis(doc.originalId, sentimentType, Round3(overall.score), Round3(overall.confidence),
                               Breakdown(lexicon, pattern, context), keyPhrases, indicators);
  }

  /** `analyze_sentiment`: the results of the documents that validate, in input order. */
  method AnalyzeSentiment(documents: seq<CleanedDocument>, m: Matchers) returns (results: seq<SentimentAnalysis>)
    ensures results == Successes(documents, (d: CleanedDocument) => AnalysisOf(d, m))
  {
    ghost var analyse := (d: CleanedDocument) => AnalysisOf(d, m);
    results := [];
    var i := 0;
    while i < |documents|
      invariant 0 <= i <= |documents|
      invariant results == Successes(documents[..i], analyse)
    {
      var r := AnalyzeSingleDocument(documents[i], m);
      SuccessesStep(documents, i, analyse);
      if r.Some? {
        results := results + [r.value];
      }
      i := i + 1;
    }
    assert documents[..i] == documents;
  }
}
