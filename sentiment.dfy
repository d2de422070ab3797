/**
 * The lexicon sentiment analyzer (`SentimentAnalyzer` in the streamlit app,
 * `TextProcessor` in the analyzer app): `analyze_sentiment` and
 * `calculate_compound_score`.
 */
module SentimentAnalysis {
  import opened Config
  import opened Text

  datatype Sentiment = Positive | Neutral | Negative

  /** `str(text).lower().split()`. */
  function Tokens(text: string): seq<string> {
    Words(Lower(text))
  }

  /** `sum(1 for word in words if word in lexicon)`. */
  function LexiconCount(ws: seq<string>, lexicon: set<string>): (n: nat)
    ensures n <= |ws|
  {
    if ws == [] then 0
    else (if ws[0] in lexicon then 1 else 0) + LexiconCount(ws[1..], lexicon)
  }

  function PositiveCount(cfg: SentimentConfig, text: string): nat {
    LexiconCount(Tokens(text), cfg.positive)
  }

  function NegativeCount(cfg: SentimentConfig, text: string): nat {
    LexiconCount(Tokens(text), cfg.negative)
  }

  /**
   * `analyze_sentiment`: a label needs one count to beat the other by more
   * than the margin, so a Positive text has more positive than negative
   * words, a Negative one more negative words, and a Neutral one counts
   * within the margin of each other.
   */
  function AnalyzeSentiment(cfg: SentimentConfig, text: string): (r: Sentiment)
    ensures r == Positive ==> PositiveCount(cfg, text) > NegativeCount(cfg, text)
    ensures r == Negative ==> NegativeCount(cfg, text) > PositiveCount(cfg, text)
    ensures r == Neutral ==>
      (PositiveCount(cfg, text) - NegativeCount(cfg, text) <= cfg.margin
       && NegativeCount(cfg, text) - PositiveCount(cfg, text) <= cfg.margin)
  {
    var pos := PositiveCount(cfg, text);
    var neg := NegativeCount(cfg, text);
    if pos > neg + cfg.margin then Positive
    else if neg > pos + cfg.margin then Negative
    else Neutral
  }

  /** `max(-1.0, min(1.0, x))`. */
  function Clamp(x: real): real {
    if x > 1.0 then 1.0 else if x < -1.0 then -1.0 else x
  }

  /**
   * `(pos - neg) / total`, 0.0 when there are no tokens, clamped where the
   * configuration says so. Each token adds at most one to each count, so the
   * score lies in [-1, 1] whether clamped or not.
   */
  function CompoundScore(cfg: SentimentConfig, text: string): (r: real)
    ensures -1.0 <= r <= 1.0
  {
    var total := |Tokens(text)|;
    if total == 0 then 0.0
    else
      var d := PositiveCount(cfg, text) - NegativeCount(cfg, text);
      RatioInUnitInterval(d, total);
      var raw := d as real / total as real;
      if cfg.clampCompound then Clamp(raw) else raw
  }

  /** The label rule, both directions: Positive, Negative and Neutral exactly when the counts say so. */
  lemma AnalyzeSentimentCases(cfg: SentimentConfig, text: string)
    ensures var pos, neg := PositiveCount(cfg, text), NegativeCount(cfg, text);
      && (AnalyzeSentiment(cfg, text) == Positive <==> pos > neg + cfg.margin)
      && (AnalyzeSentiment(cfg, text) == Negative <==> neg > pos + cfg.margin)
      && (AnalyzeSentiment(cfg, text) == Neutral <==> neg <= pos + cfg.margin && pos <= neg + cfg.margin)
  {
  }

  /** The two presets: the streamlit analyzer needs a lead of two, the analyzer app a lead of one. */
  lemma PresetMargins(text: string)
    ensures var cfg := StreamlitApp.sentiment;
      AnalyzeSentiment(cfg, text) == Positive <==> PositiveCount(cfg, text) > NegativeCount(cfg, text) + 1
    ensures var cfg := StreamlitApp.sentiment;
      AnalyzeSentiment(cfg, text) == Negative <==> NegativeCount(cfg, text) > PositiveCount(cfg, text) + 1
    ensures var cfg := AnalyzerApp.sentiment;
      AnalyzeSentiment(cfg, text) == Positive <==> PositiveCount(cfg, text) > NegativeCount(cfg, text)
    ensures var cfg := AnalyzerApp.sentiment;
      AnalyzeSentiment(cfg, text) == Negative <==> NegativeCount(cfg, text) > PositiveCount(cfg, text)
  {
  }

  /** A text without tokens (empty or all whitespace) is Neutral with compound score 0.0. */
  lemma NoTokensIsNeutral(cfg: SentimentConfig, text: string)
    requires Tokens(text) == []
    ensures AnalyzeSentiment(cfg, text) == Neutral
    ensures CompoundScore(cfg, text) == 0.0
  {
  }

  /** The empty review text in particular. */
  lemma EmptyTextIsNeutral(cfg: SentimentConfig)
    ensures AnalyzeSentiment(cfg, "") == Neutral && CompoundScore(cfg, "") == 0.0
  {
    NoTokensIsNeutral(cfg, "");
  }

  /** An integer no larger in magnitude than a positive total gives a ratio in [-1, 1]. */
  lemma RatioInUnitInterval(d: int, total: nat)
    requires total > 0 && -(total as int) <= d <= total
    ensures -1.0 <= d as real / total as real <= 1.0
    ensures d as real / total as real > 0.0 <==> d > 0
    ensures d as real / total as real < 0.0 <==> d < 0
  {
    var t := total as real;
    assert d as real / t * t == d as real;
  }

  /** The clamp of the streamlit analyzer never changes the value: the unclamped ratio is already in range. */
  lemma ClampIsInactive(cfg: SentimentConfig, text: string)
    ensures CompoundScore(cfg.(clampCompound := true), text) == CompoundScore(cfg.(clampCompound := false), text)
  {
  }

  /** The compound score has the sign of the difference of the counts. */
  lemma CompoundScoreSign(cfg: SentimentConfig, text: string)
    ensures CompoundScore(cfg, text) > 0.0 <==> PositiveCount(cfg, text) > NegativeCount(cfg, text)
    ensures CompoundScore(cfg, text) < 0.0 <==> NegativeCount(cfg, text) > PositiveCount(cfg, text)
  {
    var total := |Tokens(text)|;
    if total == 0 {
      assert PositiveCount(cfg, text) == 0 && NegativeCount(cfg, text) == 0;
    } else {
      RatioInUnitInterval(PositiveCount(cfg, text) - NegativeCount(cfg, text), total);
    }
  }

  /**
   * The label agrees with the compound score: a Positive text has a positive
   * score and a Negative one a negative score; with margin 0 the converse
   * holds too.
   */
  lemma LabelAgreesWithCompound(cfg: SentimentConfig, text: string)
    ensures AnalyzeSentiment(cfg, text) == Positive ==> CompoundScore(cfg, text) > 0.0
    ensures AnalyzeSentiment(cfg, text) == Negative ==> CompoundScore(cfg, text) < 0.0
    ensures cfg.margin == 0 ==>
      && (AnalyzeSentiment(cfg, text) == Positive <==> CompoundScore(cfg, text) > 0.0)
      && (AnalyzeSentiment(cfg, text) == Negative <==> CompoundScore(cfg, text) < 0.0)
  {
    CompoundScoreSign(cfg, text);
  }

  /** With disjoint lexicons, a token adds to at most one count. */
  lemma {:induction false} DisjointCountsFit(ws: seq<string>, pos: set<string>, neg: set<string>)
    requires pos !! neg
    ensures LexiconCount(ws, pos) + LexiconCount(ws, neg) <= |ws|
  {
    if ws != [] {
      DisjointCountsFit(ws[1..], pos, neg);
    }
  }

  /** Neither preset lists a word as both positive and negative. */
  lemma PresetLexiconsDisjoint()
    ensures StreamlitApp.sentiment.positive !! StreamlitApp.sentiment.negative
    ensures AnalyzerApp.sentiment.positive !! AnalyzerApp.sentiment.negative
  {
  }

  /** So under either preset the two counts together never exceed the number of tokens. */
  lemma PresetCountsFit(p: Preset, text: string)
    requires p == StreamlitApp || p == AnalyzerApp
    ensures PositiveCount(p.sentiment, text) + NegativeCount(p.sentiment, text) <= |Tokens(text)|
  {
    PresetLexiconsDisjoint();
    DisjointCountsFit(Tokens(text), p.sentiment.positive, p.sentiment.negative);
  }
}
