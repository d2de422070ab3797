/**
 * `FakeReviewDetector.calculate_suspicion_score`: six weighted signals for
 * one review, summed and clamped to 100.
 *
 * `SuspicionScore` is the specification (one function per signal);
 * `CalculateSuspicionScore` is the step-by-step accumulation of the source,
 * proved to compute it.
 */
module Scoring {
  import opened Config
  import opened Text

  /**
   * Whether one suspicious-pattern regular expression matches a lower-cased
   * text. Regular-expression matching is not modelled: the caller supplies it.
   */
  type Matcher = (Pattern, string) -> bool

  /** `f"{title} {content}"` over the lower-cased fields. */
  function FullText(r: Review): string {
    Lower(r.title) + [' '] + Lower(r.content)
  }

  /** `len(content.split())`: the length signal looks at the content only. */
  function ContentLength(r: Review): nat {
    |Words(Lower(r.content))|
  }

  /** A pattern's verdict on the text; a run of `!` is decided here, the rest by `matcher`. */
  predicate PatternHits(p: Pattern, text: string, matcher: Matcher) {
    if p == ExclamationRun then Contains(text, "!!!") else matcher(p, text)
  }

  /** How many of the patterns `ps` match `text`. */
  function PatternMatches(ps: seq<Pattern>, text: string, matcher: Matcher): (n: nat)
    ensures n <= |ps|
  {
    if ps == [] then 0
    else
      PatternMatches(ps[..|ps| - 1], text, matcher)
      + (if PatternHits(ps[|ps| - 1], text, matcher) then 1 else 0)
  }

  /**
   * `phrase in full_text`. Non-recursive on purpose: the counting lemmas
   * quantify over it inside set comprehensions, where the recursive
   * `Contains` would not unfold alike on both sides.
   */
  predicate PhraseFound(text: string, phrase: string) {
    Contains(text, phrase)
  }

  /** Checking one more pattern adds one exactly when it matches. */
  lemma PatternMatchesAppend(ps: seq<Pattern>, i: nat, text: string, matcher: Matcher)
    requires i < |ps|
    ensures PatternMatches(ps[..i + 1], text, matcher)
      == PatternMatches(ps[..i], text, matcher) + (if PatternHits(ps[i], text, matcher) then 1 else 0)
  {
    assert ps[..i + 1][..i] == ps[..i];
  }

  /** How many of the spam phrases occur in `text`. */
  function SpamHits(phrases: seq<string>, text: string): (n: nat)
    ensures n <= |phrases|
  {
    if phrases == [] then 0
    else
      SpamHits(phrases[..|phrases| - 1], text)
      + (if PhraseFound(text, phrases[|phrases| - 1]) then 1 else 0)
  }

  /** Looking up one more phrase adds one exactly when it occurs. */
  lemma SpamHitsAppend(phrases: seq<string>, i: nat, text: string)
    requires i < |phrases|
    ensures SpamHits(phrases[..i + 1], text) == SpamHits(phrases[..i], text) + (if PhraseFound(text, phrases[i]) then 1 else 0)
  {
    assert phrases[..i + 1][..i] == phrases[..i];
  }

  /** `min(x, cap)`, or `x` when there is no ceiling. */
  function Capped(x: nat, cap: Option<nat>): nat {
    match cap
    case None => x
    case Some(c) => if x < c then x else c
  }

  function VerificationSignal(r: Review): nat {
    if r.verified then 0 else VerificationWeight
  }

  function LengthSignal(cfg: DetectorConfig, n: nat): nat {
    if n < cfg.shortBelow then ShortWeight
    else if n > cfg.longAbove then LongWeight
    else 0
  }

  function PatternSignal(cfg: DetectorConfig, text: string, matcher: Matcher): nat {
    Capped(PatternWeight * PatternMatches(cfg.patterns, text, matcher), cfg.patternCap)
  }

  function SpamSignal(cfg: DetectorConfig, text: string): nat {
    Capped(SpamWeight * SpamHits(cfg.spamPhrases, text), Some(cfg.spamCap))
  }

  function SocialProofSignal(r: Review): nat {
    if r.helpfulVotes == 0 && (r.rating == 1 || r.rating == 5) then SocialProofWeight else 0
  }

  /**
   * `most_common / len(words) > num / den`, asked only of more than
   * `repetitionMinTokens` tokens: all or nothing, and never on a short text.
   */
  function RepetitionSignal(cfg: DetectorConfig, words: seq<string>): (s: nat)
    ensures s == 0 || s == RepetitionWeight
    ensures |words| <= cfg.repetitionMinTokens ==> s == 0
  {
    if |words| > cfg.repetitionMinTokens
       && MostCommonCount(words) * cfg.repetitionDen > cfg.repetitionNum * |words|
    then RepetitionWeight
    else 0
  }

  /** The sum of the six signals, before the clamp. */
  function RawScore(cfg: DetectorConfig, r: Review, matcher: Matcher): nat {
    var text := FullText(r);
    VerificationSignal(r)
    + LengthSignal(cfg, ContentLength(r))
    + PatternSignal(cfg, text, matcher)
    + SpamSignal(cfg, text)
    + SocialProofSignal(r)
    + RepetitionSignal(cfg, Words(text))
  }

  /** `min(score, 100)`: the raw sum where it is at most 100, and 100 above it. */
  function SuspicionScore(cfg: DetectorConfig, r: Review, matcher: Matcher): (s: nat)
    ensures s <= MaxScore && s <= RawScore(cfg, r, matcher)
    ensures s == MaxScore || s == RawScore(cfg, r, matcher)
  {
    var raw := RawScore(cfg, r, matcher);
    if raw < MaxScore then raw else MaxScore
  }

  /**
   * The scorer as the source runs it: `score` grows signal by signal; the
   * pattern and spam loops count matches (an uncapped configuration adds the
   * pattern weight inside the loop); the clamp comes last.
   */
  method CalculateSuspicionScore(cfg: DetectorConfig, r: Review, matcher: Matcher) returns (score: nat)
    ensures score == SuspicionScore(cfg, r, matcher)
    ensures score <= MaxScore
    ensures score == MaxScore || score == RawScore(cfg, r, matcher)
  {
    score := 0;
    var title := Lower(r.title);
    var content := Lower(r.content);
    var fullText := title + [' '] + content;

    // Verification status
    if !r.verified {
      score := score + VerificationWeight;
    }

    // Review length
    var reviewLength := |Words(content)|;
    if reviewLength < cfg.shortBelow {
      score := score + ShortWeight;
    } else if reviewLength > cfg.longAbove {
      score := score + LongWeight;
    }
    assert fullText == FullText(r) && reviewLength == ContentLength(r);
    ghost var afterLength := score;
    assert afterLength == VerificationSignal(r) + LengthSignal(cfg, ContentLength(r));

    // Suspicious patterns
    var patternMatches := 0;
    for i := 0 to |cfg.patterns|
      invariant patternMatches == PatternMatches(cfg.patterns[..i], fullText, matcher)
      invariant score == afterLength + (if cfg.patternCap.None? then PatternWeight * patternMatches else 0)
    {
      PatternMatchesAppend(cfg.patterns, i, fullText, matcher);
      if PatternHits(cfg.patterns[i], fullText, matcher) {
        patternMatches := patternMatches + 1;
        if cfg.patternCap.None? {
          score := score + PatternWeight;
        }
      }
    }
    assert cfg.patterns[..|cfg.patterns|] == cfg.patterns;
    if cfg.patternCap.Some? {
      var cap := cfg.patternCap.value;
      score := score + if patternMatches * PatternWeight < cap then patternMatches * PatternWeight else cap;
    }
    ghost var afterPatterns := score;
    assert afterPatterns == afterLength + PatternSignal(cfg, fullText, matcher);

    // Spam phrases
    var spamCount := 0;
    for i := 0 to |cfg.spamPhrases|
      invariant spamCount == SpamHits(cfg.spamPhrases[..i], fullText)
      invariant score == afterPatterns
    {
      SpamHitsAppend(cfg.spamPhrases, i, fullText);
      if PhraseFound(fullText, cfg.spamPhrases[i]) {
        spamCount := spamCount + 1;
      }
    }
    assert cfg.spamPhrases[..|cfg.spamPhrases|] == cfg.spamPhrases;
    score := score + if spamCount * SpamWeight < cfg.spamCap then spamCount * SpamWeight else cfg.spamCap;
    assert score == afterPatterns + SpamSignal(cfg, fullText);

    // Social proof
    if r.helpfulVotes == 0 && (r.rating == 1 || r.rating == 5) {
      score := score + SocialProofWeight;
    }

    // Repetitive language
    var words := Words(fullText);
    if |words| > cfg.repetitionMinTokens {
      var mostCommon := MostCommonFrequency(words);
      if mostCommon * cfg.repetitionDen > cfg.repetitionNum * |words| {
        score := score + RepetitionWeight;
      }
    }

    assert score == RawScore(cfg, r, matcher);
    if score > MaxScore {
      score := MaxScore;
    }
  }

  /** Each pattern in the list counts once if it matches, however often it occurs. */
  lemma {:induction false} PatternMatchesCountsMatchingPatterns(ps: seq<Pattern>, text: string, matcher: Matcher)
    ensures PatternMatches(ps, text, matcher) == |set i | 0 <= i < |ps| && PatternHits(ps[i], text, matcher)|
  {
    if ps != [] {
      var n := |ps| - 1;
      var p := ps[..n];
      PatternMatchesCountsMatchingPatterns(p, text, matcher);
      var before := set i | 0 <= i < |p| && PatternHits(p[i], text, matcher);
      var after := set i | 0 <= i < |ps| && PatternHits(ps[i], text, matcher);
      if PatternHits(ps[n], text, matcher) {
        assert after == before + {n};
      } else {
        assert after == before;
      }
    }
  }

  /** Each spam phrase counts once if it occurs, however often it occurs. */
  lemma {:induction false} SpamHitsCountsOccurringPhrases(phrases: seq<string>, text: string)
    ensures SpamHits(phrases, text) == |set i | 0 <= i < |phrases| && PhraseFound(text, phrases[i])|
  {
    if phrases != [] {
      var n := |phrases| - 1;
      var p := phrases[..n];
      SpamHitsCountsOccurringPhrases(p, text);
      var before := set i | 0 <= i < |p| && PhraseFound(text, p[i]);
      var after := set i | 0 <= i < |phrases| && PhraseFound(text, phrases[i]);
      assert forall i :: 0 <= i < n ==> p[i] == phrases[i];
      if PhraseFound(text, phrases[n]) {
        assert after == before + {n} && n !in before;
        assert SpamHits(phrases, text) == SpamHits(p, text) + 1;
      } else {
        assert after == before;
        assert SpamHits(phrases, text) == SpamHits(p, text);
      }
    }
  }

  /** When every pattern matches, the count is the length of the list. */
  lemma {:induction false} AllPatternsMatch(ps: seq<Pattern>, text: string, matcher: Matcher)
    requires forall k :: 0 <= k < |ps| ==> PatternHits(ps[k], text, matcher)
    ensures PatternMatches(ps, text, matcher) == |ps|
  {
    if ps != [] {
      AllPatternsMatch(ps[..|ps| - 1], text, matcher);
    }
  }

  /** A pattern of the list that matches makes the count at least one. */
  lemma PatternMatchesAtLeastOne(ps: seq<Pattern>, k: nat, text: string, matcher: Matcher)
    requires k < |ps| && PatternHits(ps[k], text, matcher)
    ensures PatternMatches(ps, text, matcher) >= 1
  {
    PatternMatchesCountsMatchingPatterns(ps, text, matcher);
    var hits := set i | 0 <= i < |ps| && PatternHits(ps[i], text, matcher);
    assert k in hits;
  }

  /** The final score is in [0, 100], and every raw sum above 100 is clamped to 100. */
  lemma SuspicionScoreClamp(cfg: DetectorConfig, r: Review, matcher: Matcher)
    ensures 0 <= SuspicionScore(cfg, r, matcher) <= MaxScore
    ensures RawScore(cfg, r, matcher) <= MaxScore ==> SuspicionScore(cfg, r, matcher) == RawScore(cfg, r, matcher)
    ensures RawScore(cfg, r, matcher) > MaxScore ==> SuspicionScore(cfg, r, matcher) == MaxScore
  {
  }

  /** The largest raw sums: 165 for the streamlit preset, 150 for the analyzer preset. */
  lemma RawScoreCeilings(r: Review, matcher: Matcher)
    ensures RawScore(StreamlitApp.detector, r, matcher) <= 165
    ensures RawScore(AnalyzerApp.detector, r, matcher) <= 150
  {
    var text := FullText(r);
    assert SpamHits(AnalyzerApp.detector.spamPhrases, text) == 0;
  }

  /**
   * An unverified, unvoted 5-star review of seven content tokens: "!!!",
   * "amazing perfect" (two superlatives), "buy now" (a sales phrase) and
   * "5 stars" (a star rating).
   */
  const ClampWords: seq<string> := ["!!!", "amazing", "perfect", "buy", "now", "5", "stars"]
  const ClampReview := Review("", JoinSpace(ClampWords), false, 5, 0)

  lemma ClampReviewText()
    ensures Lower(ClampReview.content) == JoinSpace(ClampWords)
    ensures FullText(ClampReview) == [' '] + JoinSpace(ClampWords)
  {
    assert Lower("!!!") == "!!!" && Lower("amazing") == "amazing" && Lower("perfect") == "perfect";
    assert Lower("buy") == "buy" && Lower("now") == "now" && Lower("5") == "5" && Lower("stars") == "stars";
    LowerJoinSpace(ClampWords);
  }

  lemma ClampReviewWords()
    ensures Words(JoinSpace(ClampWords)) == ClampWords
  {
    assert IsWord("!!!") && IsWord("amazing") && IsWord("perfect");
    assert IsWord("buy") && IsWord("now") && IsWord("5") && IsWord("stars");
    WordsOfJoinSpace(ClampWords);
  }

  /** A text that starts with a blank and a word starting with "!!!" holds "!!!". */
  lemma ExclamationAfterBlank(ws: seq<string>)
    requires |ws| > 1 && |ws[0]| >= 3 && ws[0][..3] == "!!!"
    ensures Contains([' '] + JoinSpace(ws), "!!!")
  {
    var text := [' '] + JoinSpace(ws);
    assert text == [' '] + ws[0] + ([' '] + JoinSpace(ws[1..]));
    assert text[1..4] == ws[0][..3];
    ContainsAt(text, "!!!", 1);
  }

  /**
   * The clamp is reachable under both presets: when the superlative, sales
   * and star-rating expressions match the review above, its raw sum is at
   * least 115 (streamlit: 30 + 25 + 45 + 15) or 130 (analyzer: 30 + 25 + 60
   * + 15), and its score is 100.
   */
  lemma ClampIsReachable(matcher: Matcher)
    requires matcher(SuperlativePair, FullText(ClampReview))
    requires matcher(SalesPhrase, FullText(ClampReview))
    requires matcher(StarRating, FullText(ClampReview))
    ensures RawScore(StreamlitApp.detector, ClampReview, matcher) >= 115
    ensures SuspicionScore(StreamlitApp.detector, ClampReview, matcher) == MaxScore
    ensures RawScore(AnalyzerApp.detector, ClampReview, matcher) >= 130
    ensures SuspicionScore(AnalyzerApp.detector, ClampReview, matcher) == MaxScore
  {
    ClampReviewText();
    ClampReviewWords();
    assert ContentLength(ClampReview) == 7;
    ClampReviewPatterns(matcher);
  }

  /** The four shared patterns all match the review above: 45 points (streamlit, capped) and 60 (analyzer). */
  lemma ClampReviewPatterns(matcher: Matcher)
    requires matcher(SuperlativePair, FullText(ClampReview))
    requires matcher(SalesPhrase, FullText(ClampReview))
    requires matcher(StarRating, FullText(ClampReview))
    ensures PatternSignal(StreamlitApp.detector, FullText(ClampReview), matcher) == 45
    ensures PatternSignal(AnalyzerApp.detector, FullText(ClampReview), matcher) == 60
  {
    var text := FullText(ClampReview);
    ClampReviewText();
    ExclamationAfterBlank(ClampWords);
    var ps := AnalyzerApp.detector.patterns;
    assert PatternHits(ps[0], text, matcher);
    AllPatternsMatch(ps, text, matcher);
    ThreeHitsReachCap(text, matcher, 1, 2, 3);
  }

  /** A phrase placed inside a text is found there. */
  lemma PhraseInside(pre: string, phrase: string, post: string)
    ensures PhraseFound(pre + phrase + post, phrase)
  {
    var text := pre + phrase + post;
    assert text[|pre|..|pre| + |phrase|] == phrase;
    ContainsAt(text, phrase, |pre|);
  }

  /** A set holding three distinct members has at least three. */
  lemma ThreeMembers(s: set<int>, a: int, b: int, c: int)
    requires a in s && b in s && c in s && a != b && b != c && a != c
    ensures |s| >= 3
  {
    var t := {a, b, c};
    assert s == (s - t) + t;
  }

  /** A review that raises every signal of the streamlit preset to its ceiling. */
  const CeilingTitleWords: seq<string> := ["perfect", "perfect", "amazing", "amazing"]
  const CeilingContentWords: seq<string> := ["great", "great", "great", "great", "great", "great", "great"]
  const CeilingReview := Review(JoinSpace(CeilingTitleWords), JoinSpace(CeilingContentWords), false, 5, 0)

  lemma CeilingReviewText()
    ensures Lower(JoinSpace(CeilingContentWords)) == JoinSpace(CeilingContentWords)
    ensures FullText(CeilingReview) == JoinSpace(CeilingTitleWords) + [' '] + JoinSpace(CeilingContentWords)
  {
    var p, a, g := "perfect", "amazing", "great";
    assert Lower(p) == p && Lower(a) == a && Lower(g) == g;
    LowerJoinSpace(CeilingTitleWords);
    LowerJoinSpace(CeilingContentWords);
  }

  /** Tokens joined by blanks, then title and content joined by a blank, split back into the tokens. */
  lemma SplitTitleAndContent(tws: seq<string>, cws: seq<string>)
    requires forall k :: 0 <= k < |tws| ==> IsWord(tws[k])
    requires forall k :: 0 <= k < |cws| ==> IsWord(cws[k])
    ensures Words(JoinSpace(tws) + [' '] + JoinSpace(cws)) == tws + cws
    ensures Words(JoinSpace(cws)) == cws
  {
    WordsAroundSpace(JoinSpace(tws), ' ', JoinSpace(cws));
    WordsOfJoinSpace(tws);
    WordsOfJoinSpace(cws);
  }

  lemma CeilingReviewWords()
    ensures Words(JoinSpace(CeilingTitleWords) + [' '] + JoinSpace(CeilingContentWords))
      == CeilingTitleWords + CeilingContentWords
    ensures Words(JoinSpace(CeilingContentWords)) == CeilingContentWords
  {
    assert IsWord("perfect") && IsWord("amazing") && IsWord("great");
    SplitTitleAndContent(CeilingTitleWords, CeilingContentWords);
  }

  /** Each of the three doubled words of the ceiling review appears, as a pair, in its full text. */
  lemma DoubledWordsFound(p: string, a: string, g: string)
    ensures var text := JoinSpace([p, p, a, a]) + [' '] + JoinSpace([g, g, g, g, g, g, g]);
      && PhraseFound(text, p + [' '] + p)
      && PhraseFound(text, a + [' '] + a)
      && PhraseFound(text, g + [' '] + g)
  {
    var tws, cws := [p, p, a, a], [g, g, g, g, g, g, g];
    var title, content := JoinSpace(tws), JoinSpace(cws);
    var text := title + [' '] + content;
    var rest, tail := JoinSpace(tws[2..]), JoinSpace(cws[2..]);
    assert tws[1..] == [p, a, a] && tws[2..] == [a, a] && [a, a][1..] == [a];
    assert JoinSpace([a]) == a;
    assert rest == JoinSpace([a, a]) == a + [' '] + JoinSpace([a]);
    assert JoinSpace(tws[1..]) == p + [' '] + rest;
    assert title == (p + [' '] + p) + ([' '] + rest);
    assert text == [] + (p + [' '] + p) + ([' '] + rest + [' '] + content);
    PhraseInside([], p + [' '] + p, [' '] + rest + [' '] + content);
    assert text == (p + [' '] + p + [' ']) + (a + [' '] + a) + ([' '] + content);
    PhraseInside(p + [' '] + p + [' '], a + [' '] + a, [' '] + content);
    assert cws[1..] == [g, g, g, g, g, g] && cws[1..][1..] == cws[2..];
    assert JoinSpace(cws[1..]) == g + [' '] + tail;
    assert content == (g + [' '] + g) + [' '] + tail;
    assert text == (title + [' ']) + (g + [' '] + g) + ([' '] + tail);
    PhraseInside(title + [' '], g + [' '] + g, [' '] + tail);
  }

  lemma CeilingReviewSpam()
    ensures SpamSignal(StreamlitApp.detector, JoinSpace(CeilingTitleWords) + [' '] + JoinSpace(CeilingContentWords)) == 30
  {
    var p, a, g := "perfect", "amazing", "great";
    var text := JoinSpace(CeilingTitleWords) + [' '] + JoinSpace(CeilingContentWords);
    var phrases := StreamlitApp.detector.spamPhrases;
    DoubledWordsFound(p, a, g);
    assert phrases[1] == p + [' '] + p && phrases[2] == a + [' '] + a && phrases[3] == g + [' '] + g;
    SpamHitsCountsOccurringPhrases(phrases, text);
    ThreeMembers(set i | 0 <= i < |phrases| && PhraseFound(text, phrases[i]), 1, 2, 3);
  }

  /** The streamlit pattern signal is at its cap of 45 exactly when at least three patterns match. */
  lemma PatternCapReached(text: string, matcher: Matcher)
    ensures PatternSignal(StreamlitApp.detector, text, matcher) == 45 <==>
      PatternMatches(StreamlitApp.detector.patterns, text, matcher) >= 3
  {
  }

  /** Three distinct streamlit patterns that match put the pattern signal at its cap. */
  lemma ThreeHitsReachCap(text: string, matcher: Matcher, a: nat, b: nat, c: nat)
    requires a < 6 && b < 6 && c < 6 && a != b && b != c && a != c
    requires var ps := StreamlitApp.detector.patterns;
      PatternHits(ps[a], text, matcher) && PatternHits(ps[b], text, matcher) && PatternHits(ps[c], text, matcher)
    ensures PatternMatches(StreamlitApp.detector.patterns, text, matcher) >= 3
    ensures PatternSignal(StreamlitApp.detector, text, matcher) == 45
  {
    var ps := StreamlitApp.detector.patterns;
    PatternMatchesCountsMatchingPatterns(ps, text, matcher);
    ThreeMembers((set i | 0 <= i < |ps| && PatternHits(ps[i], text, matcher)), a, b, c);
  }

  lemma CeilingReviewRepetition()
    ensures RepetitionSignal(StreamlitApp.detector, CeilingTitleWords + CeilingContentWords) == RepetitionWeight
  {
    var ws := CeilingTitleWords + CeilingContentWords;
    assert ws[..10][..9] == ws[..9];
    assert Occurrences(ws, "great") >= 2;
    MostCommonCountIsMaximum(ws);
  }

  /**
   * The streamlit ceiling of 165 is attained: an unverified, unvoted 5-star
   * review of seven content tokens holding three spam phrases and a repeated
   * token, on which the superlative, repeated-"great" and repeated-"perfect"
   * expressions match.
   */
  lemma RawScoreCeilingIsReached(matcher: Matcher)
    requires matcher(SuperlativePair, FullText(CeilingReview))
    requires matcher(RepeatedGreat, FullText(CeilingReview))
    requires matcher(RepeatedPerfect, FullText(CeilingReview))
    ensures RawScore(StreamlitApp.detector, CeilingReview, matcher) == 165
    ensures SuspicionScore(StreamlitApp.detector, CeilingReview, matcher) == MaxScore
  {
    CeilingReviewText();
    CeilingReviewWords();
    CeilingReviewSpam();
    ThreeHitsReachCap(FullText(CeilingReview), matcher, 1, 4, 5);
    CeilingReviewRepetition();
  }

  /** An unverified review scores exactly 30 more before the clamp, and never less after it. */
  lemma UnverifiedAddsThirty(cfg: DetectorConfig, r: Review, matcher: Matcher)
    ensures RawScore(cfg, r.(verified := false), matcher) == RawScore(cfg, r.(verified := true), matcher) + VerificationWeight
    ensures SuspicionScore(cfg, r.(verified := false), matcher) >= SuspicionScore(cfg, r.(verified := true), matcher)
  {
  }

  /** Zero helpful votes on a 1- or 5-star rating adds exactly 15 over any voted version of the review. */
  lemma UnvotedExtremeRatingAddsFifteen(cfg: DetectorConfig, r: Review, votes: nat, matcher: Matcher)
    requires r.rating == 1 || r.rating == 5
    requires votes > 0
    ensures RawScore(cfg, r.(helpfulVotes := 0), matcher) == RawScore(cfg, r.(helpfulVotes := votes), matcher) + SocialProofWeight
  {
  }

  /** The length signal: 25 when short, 10 when long, 0 otherwise, never two of them. */
  lemma LengthSignalBands(n: nat)
    ensures LengthSignal(StreamlitApp.detector, n) == 25 <==> n < 20
    ensures LengthSignal(StreamlitApp.detector, n) == 10 <==> n > 400
    ensures LengthSignal(StreamlitApp.detector, n) == 0 <==> 20 <= n <= 400
    ensures LengthSignal(AnalyzerApp.detector, n) == 25 <==> n < 15
    ensures LengthSignal(AnalyzerApp.detector, n) == 10 <==> n > 500
    ensures LengthSignal(AnalyzerApp.detector, n) == 0 <==> 15 <= n <= 500
  {
  }

  /** The length signal counts content tokens only: the title never changes it. */
  lemma LengthSignalIgnoresTitle(cfg: DetectorConfig, r: Review, title: string)
    ensures LengthSignal(cfg, ContentLength(r.(title := title))) == LengthSignal(cfg, ContentLength(r))
  {
  }

  /** The pattern signal: 15 per matching pattern, capped at 45 (streamlit) or uncapped up to 60 (analyzer). */
  lemma PatternSignalValues(text: string, matcher: Matcher)
    ensures var k := PatternMatches(StreamlitApp.detector.patterns, text, matcher);
      k <= 6 && PatternSignal(StreamlitApp.detector, text, matcher) == if 15 * k < 45 then 15 * k else 45
    ensures var k := PatternMatches(AnalyzerApp.detector.patterns, text, matcher);
      k <= 4 && PatternSignal(AnalyzerApp.detector, text, matcher) == 15 * k <= 60
  {
  }

  /** The spam signal: 10 per phrase found, capped at 30; the analyzer preset has none. */
  lemma SpamSignalValues(text: string)
    ensures var k := SpamHits(StreamlitApp.detector.spamPhrases, text);
      k <= 10 && SpamSignal(StreamlitApp.detector, text) == if 10 * k < 30 then 10 * k else 30
    ensures SpamSignal(AnalyzerApp.detector, text) == 0
  {
  }

  /** The tokens of the full text are those of the title followed by those of the content. */
  lemma FullTextWords(r: Review)
    ensures Words(FullText(r)) == Words(Lower(r.title)) + Words(Lower(r.content))
  {
    WordsAroundSpace(Lower(r.title), ' ', Lower(r.content));
  }

  /** The repetition signal never fires when title and content together have too few tokens. */
  lemma RepetitionSilentOnFewTokens(cfg: DetectorConfig, r: Review)
    requires |Words(Lower(r.title))| + |Words(Lower(r.content))| <= cfg.repetitionMinTokens
    ensures RepetitionSignal(cfg, Words(FullText(r))) == 0
  {
    FullTextWords(r);
  }

  /**
   * The repetition signal fires exactly when there are enough tokens and
   * some token's share of them exceeds the configured ratio.
   */
  lemma RepetitionFiresIff(cfg: DetectorConfig, ws: seq<string>)
    ensures RepetitionSignal(cfg, ws) == RepetitionWeight <==>
      |ws| > cfg.repetitionMinTokens &&
      exists i :: 0 <= i < |ws| && Occurrences(ws, ws[i]) * cfg.repetitionDen > cfg.repetitionNum * |ws|
    ensures RepetitionSignal(cfg, ws) == 0 || RepetitionSignal(cfg, ws) == RepetitionWeight
  {
    MostCommonCountIsMaximum(ws);
    var m := MostCommonCount(ws);
    if exists i :: 0 <= i < |ws| && Occurrences(ws, ws[i]) * cfg.repetitionDen > cfg.repetitionNum * |ws| {
      var i :| 0 <= i < |ws| && Occurrences(ws, ws[i]) * cfg.repetitionDen > cfg.repetitionNum * |ws|;
      MultiplyMonotone(Occurrences(ws, ws[i]), m, cfg.repetitionDen);
    }
  }

  lemma MultiplyMonotone(a: nat, b: nat, c: nat)
    requires a <= b
    ensures a * c <= b * c
  {
  }

  /** Five occurrences of one token among twelve trip the repetition signal of both presets. */
  lemma RepetitionFiveOfTwelve(ws: seq<string>, w: string)
    requires |ws| == 12 && Occurrences(ws, w) == 5
    ensures RepetitionSignal(StreamlitApp.detector, ws) == RepetitionWeight
    ensures RepetitionSignal(AnalyzerApp.detector, ws) == RepetitionWeight
  {
    MostCommonCountIsMaximum(ws);
  }
}
