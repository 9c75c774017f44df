/** The indicator-word language flag both the collection and the cleaning stage compute. */
module Language {
  import opened Collections
  import Arith

  /**
   * "en" when more than one word in `k` belongs to `indicators`, "unknown"
   * otherwise or when there are no words.
   */
  function IndicatorLanguage(words: seq<string>, indicators: set<string>, k: nat): (lang: string)
    ensures lang == "en" || lang == "unknown"
    ensures words == [] ==> lang == "unknown"
  {
    if words == [] then "unknown"
    else if k * CountIn(words, indicators) > |words| then "en"
    else "unknown"
  }

  /**
   * The flag is "en" exactly when the indicator ratio exceeds `t`: 0.1 for the
   * collection stage (`k` = 10), 0.05 for the cleaning stage (`k` = 20).
   */
  lemma IndicatorLanguageRatio(words: seq<string>, indicators: set<string>, k: nat, t: real)
    requires words != []
    requires (k == 10 && t == 0.1) || (k == 20 && t == 0.05)
    ensures IndicatorLanguage(words, indicators, k) == "en"
            <==> (CountIn(words, indicators) as real) / (|words| as real) > t
  {
    Arith.RatioAbove(CountIn(words, indicators) as real, |words| as real, t);
  }
}
