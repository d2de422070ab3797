/**
 * `FakeReviewDetector.classify_reviews`: the score bands, and the row-by-row
 * pass that writes the score, classification and (where the configuration
 * reports one) confidence columns into the review table.
 */
module Classifier {
  import opened Config
  import opened Text
  import opened Scoring

  datatype Classification = Genuine | Suspicious | Fake
  datatype Confidence = Low | Medium | High

  /** A band's verdict; `confidence` is present only when the configuration reports one. */
  datatype Verdict = Verdict(kind: Classification, confidence: Option<Confidence>)

  /** Thresholds in ascending order, the medium tier inside the suspicious band. */
  predicate OrderedBands(b: BandConfig) {
    && b.suspiciousAbove < b.fakeAbove
    && (b.mediumAbove.Some? ==> b.suspiciousAbove <= b.mediumAbove.value <= b.fakeAbove)
  }

  /** The band logic of `classify_reviews`, highest threshold first. */
  function Classify(b: BandConfig, score: int): (v: Verdict)
    ensures v.confidence.Some? <==> b.mediumAbove.Some?
  {
    var tiered := b.mediumAbove.Some?;
    if score > b.fakeAbove then
      Verdict(Fake, if tiered then Some(High) else None)
    else if score > b.suspiciousAbove then
      Verdict(Suspicious,
        if !tiered then None
        else if score > b.mediumAbove.value then Some(Medium)
        else Some(Low))
    else
      Verdict(Genuine, if tiered then Some(High) else None)
  }

  /** Severity of a classification, Genuine lowest. */
  function Rank(c: Classification): nat {
    match c
    case Genuine => 0
    case Suspicious => 1
    case Fake => 2
  }

  /** The three bands partition the integers: each score gets exactly the band its thresholds give. */
  lemma BandsPartition(b: BandConfig, score: int)
    requires OrderedBands(b)
    ensures Classify(b, score).kind == Fake <==> score > b.fakeAbove
    ensures Classify(b, score).kind == Suspicious <==> b.suspiciousAbove < score <= b.fakeAbove
    ensures Classify(b, score).kind == Genuine <==> score <= b.suspiciousAbove
  {
  }

  /** A higher score never gets a milder classification. */
  lemma ClassificationMonotone(b: BandConfig, s1: int, s2: int)
    requires OrderedBands(b)
    requires s1 <= s2
    ensures Rank(Classify(b, s1).kind) <= Rank(Classify(b, s2).kind)
  {
  }

  /** The streamlit bands: above 70 Fake/High, 46-70 Suspicious/Medium, 26-45 Suspicious/Low, else Genuine/High. */
  lemma StreamlitBands(score: int)
    ensures OrderedBands(StreamlitApp.bands)
    ensures Classify(StreamlitApp.bands, score) == Verdict(Fake, Some(High)) <==> score >= 71
    ensures Classify(StreamlitApp.bands, score) == Verdict(Suspicious, Some(Medium)) <==> 46 <= score <= 70
    ensures Classify(StreamlitApp.bands, score) == Verdict(Suspicious, Some(Low)) <==> 26 <= score <= 45
    ensures Classify(StreamlitApp.bands, score) == Verdict(Genuine, Some(High)) <==> score <= 25
  {
  }

  /** The analyzer bands: above 60 Fake, 36-60 Suspicious, else Genuine; no confidence. */
  lemma AnalyzerBands(score: int)
    ensures OrderedBands(AnalyzerApp.bands)
    ensures Classify(AnalyzerApp.bands, score) == Verdict(Fake, None) <==> score >= 61
    ensures Classify(AnalyzerApp.bands, score) == Verdict(Suspicious, None) <==> 36 <= score <= 60
    ensures Classify(AnalyzerApp.bands, score) == Verdict(Genuine, None) <==> score <= 35
  {
  }

  /**
   * An unverified ten-word 5-star review without helpful votes that uses a
   * sales phrase scores at least 85 and is Fake (with High confidence where
   * confidence is reported).
   */
  lemma UnverifiedSalesPitchIsFake(p: Preset, r: Review, matcher: Matcher)
    requires p == StreamlitApp || p == AnalyzerApp
    requires !r.verified && ContentLength(r) == 10
    requires r.rating == 5 && r.helpfulVotes == 0
    requires matcher(SalesPhrase, FullText(r))
    ensures SuspicionScore(p.detector, r, matcher) >= 85
    ensures Classify(p.bands, SuspicionScore(p.detector, r, matcher)).kind == Fake
    ensures p == StreamlitApp ==> Classify(p.bands, SuspicionScore(p.detector, r, matcher)).confidence == Some(High)
  {
    PatternMatchesAtLeastOne(p.detector.patterns, 2, FullText(r), matcher);
  }

  /**
   * A verified review of ordinary length, with helpful votes or a moderate
   * rating, that matches no pattern and no spam phrase scores at most 20 and
   * is Genuine (with High confidence where confidence is reported).
   */
  lemma NoRedFlagsIsGenuine(p: Preset, r: Review, matcher: Matcher)
    requires p == StreamlitApp || p == AnalyzerApp
    requires r.verified
    requires p.detector.shortBelow <= ContentLength(r) <= p.detector.longAbove
    requires r.helpfulVotes > 0 || (r.rating != 1 && r.rating != 5)
    requires PatternMatches(p.detector.patterns, FullText(r), matcher) == 0
    requires SpamHits(p.detector.spamPhrases, FullText(r)) == 0
    ensures SuspicionScore(p.detector, r, matcher) <= 20
    ensures Classify(p.bands, SuspicionScore(p.detector, r, matcher)).kind == Genuine
    ensures p == StreamlitApp ==> Classify(p.bands, SuspicionScore(p.detector, r, matcher)).confidence == Some(High)
  {
  }

  /** The review table: its rows and the columns `classify_reviews` adds (absent until then). */
  class ReviewFrame {
    var rows: seq<Review>
    var suspicionScore: Option<seq<nat>>
    var classification: Option<seq<Classification>>
    var confidence: Option<seq<Confidence>>

    constructor (rows: seq<Review>)
      ensures this.rows == rows
      ensures suspicionScore == None && classification == None && confidence == None
    {
      this.rows := rows;
      suspicionScore := None;
      classification := None;
      confidence := None;
    }
  }

  /** The score of every row, in row order. */
  function ScoreColumn(cfg: DetectorConfig, rows: seq<Review>, matcher: Matcher): seq<nat> {
    seq(|rows|, i requires 0 <= i < |rows| => SuspicionScore(cfg, rows[i], matcher))
  }

  /** The classification of every score, in order. */
  function LabelColumn(b: BandConfig, scores: seq<nat>): seq<Classification> {
    seq(|scores|, i requires 0 <= i < |scores| => Classify(b, scores[i]).kind)
  }

  /** The confidence of every score, in order, for a configuration that reports one. */
  function ConfidenceColumn(b: BandConfig, scores: seq<nat>): seq<Confidence>
    requires b.mediumAbove.Some?
  {
    seq(|scores|, i requires 0 <= i < |scores| => Classify(b, scores[i]).confidence.value)
  }

  /** Scoring one more row appends its score. */
  lemma ScoreColumnAppend(cfg: DetectorConfig, rows: seq<Review>, i: nat, matcher: Matcher)
    requires i < |rows|
    ensures ScoreColumn(cfg, rows[..i + 1], matcher) == ScoreColumn(cfg, rows[..i], matcher) + [SuspicionScore(cfg, rows[i], matcher)]
  {
    assert rows[..i + 1][..i] == rows[..i];
  }

  /** Classifying one more score appends its label and, where reported, its confidence. */
  lemma ColumnsAppend(b: BandConfig, scores: seq<nat>, score: nat)
    ensures LabelColumn(b, scores + [score]) == LabelColumn(b, scores) + [Classify(b, score).kind]
    ensures b.mediumAbove.Some? ==>
      ConfidenceColumn(b, scores + [score]) == ConfidenceColumn(b, scores) + [Classify(b, score).confidence.value]
  {
  }

  /**
   * `classify_reviews`: scores every row, appends its score, classification
   * and confidence to lists, then stores the lists as columns of the table.
   * Exactly one entry per row, in row order; the rows are untouched.
   */
  method ClassifyReviews(p: Preset, df: ReviewFrame, matcher: Matcher)
    modifies df
    ensures df.rows == old(df.rows)
    ensures df.suspicionScore == Some(ScoreColumn(p.detector, df.rows, matcher))
    ensures df.classification == Some(LabelColumn(p.bands, ScoreColumn(p.detector, df.rows, matcher)))
    ensures df.confidence ==
      if p.bands.mediumAbove.Some? then Some(ConfidenceColumn(p.bands, ScoreColumn(p.detector, df.rows, matcher)))
      else old(df.confidence)
  {
    var rows := df.rows;
    var scores: seq<nat> := [];
    var classifications: seq<Classification> := [];
    var confidences: seq<Confidence> := [];
    for i := 0 to |rows|
      invariant unchanged(df)
      invariant scores == ScoreColumn(p.detector, rows[..i], matcher)
      invariant classifications == LabelColumn(p.bands, scores)
      invariant p.bands.mediumAbove.Some? ==> confidences == ConfidenceColumn(p.bands, scores)
    {
      var score := CalculateSuspicionScore(p.detector, rows[i], matcher);
      var verdict := Classify(p.bands, score);
      classifications := classifications + [verdict.kind];
      if verdict.confidence.Some? {
        confidences := confidences + [verdict.confidence.value];
      }
      ColumnsAppend(p.bands, scores, score);
      ScoreColumnAppend(p.detector, rows, i, matcher);
      scores := scores + [score];
    }
    assert rows[..|rows|] == rows;
    df.suspicionScore := Some(scores);
    df.classification := Some(classifications);
    if p.bands.mediumAbove.Some? {
      df.confidence := Some(confidences);
    }
  }
}
