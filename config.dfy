/**
 * The records the engine works on and the read-only rule configuration.
 * The two application files carry the same engine with different
 * constants; each becomes one `Preset` value below.
 */
module Config {

  datatype Option<T> = None | Some(value: T)

  /** One row of the review table, as `classify_reviews` hands it to the scorer. */
  datatype Review = Review(
    title: string,
    content: string,
    verified: bool,
    rating: int,
    helpfulVotes: nat)

  /**
   * The suspicious-pattern regular expressions, by meaning:
   * a run of three or more `!`; two superlatives in one line; a sales phrase
   * ("buy now", "don't buy", "waste money", "highly recommend", "must buy");
   * "5 star"/"5 stars"; "great" repeated; "perfect" repeated.
   */
  datatype Pattern =
    | ExclamationRun
    | SuperlativePair
    | SalesPhrase
    | StarRating
    | RepeatedGreat
    | RepeatedPerfect

  /** The constants of `FakeReviewDetector.calculate_suspicion_score`. */
  datatype DetectorConfig = DetectorConfig(
    shortBelow: nat,              // fewer content tokens than this: "too short"
    longAbove: nat,               // more content tokens than this: "unusually long"
    patterns: seq<Pattern>,       // tried in order, each counted at most once
    patternCap: Option<nat>,      // ceiling of the pattern signal, None: uncapped
    spamPhrases: seq<string>,     // literal phrases looked up with `in`
    spamCap: nat,                 // ceiling of the spam signal
    repetitionMinTokens: nat,     // the repetition signal needs more tokens than this
    repetitionNum: nat,           // the repetition ratio threshold is
    repetitionDen: nat)           //   repetitionNum / repetitionDen

  /** The score bands of `classify_reviews`. */
  datatype BandConfig = BandConfig(
    fakeAbove: int,               // a higher score is Fake
    suspiciousAbove: int,         // a higher score (up to fakeAbove) is Suspicious
    mediumAbove: Option<int>)     // when present: confidence is reported, and a
                                  // Suspicious score above it has Medium confidence

  /** The lexicons and the decision rule of the sentiment analyzer. */
  datatype SentimentConfig = SentimentConfig(
    positive: set<string>,
    negative: set<string>,
    margin: nat,                  // a label needs one count to exceed the other by more than this
    clampCompound: bool)          // whether the compound score is clamped to [-1, 1]

  /** A URL pattern `prefix([A-Z0-9]{10})suffix` of `extract_product_id`. */
  datatype UrlPattern = UrlPattern(prefix: string, suffix: string)

  datatype ProductIdConfig = ProductIdConfig(
    patterns: seq<UrlPattern>,    // tried in order
    fallback: Option<string>)     // returned when no pattern matches

  datatype Preset = Preset(
    detector: DetectorConfig,
    bands: BandConfig,
    sentiment: SentimentConfig,
    productId: ProductIdConfig)

  // Signal weights; both application files use the same ones.
  const VerificationWeight: nat := 30
  const ShortWeight: nat := 25
  const LongWeight: nat := 10
  const PatternWeight: nat := 15
  const SpamWeight: nat := 10
  const SocialProofWeight: nat := 15
  const RepetitionWeight: nat := 20
  const MaxScore: nat := 100

  /** The configuration of streamlit_app.py.py. */
  const StreamlitApp := Preset(
    DetectorConfig(
      20, 400,
      [ExclamationRun, SuperlativePair, SalesPhrase, StarRating, RepeatedGreat, RepeatedPerfect],
      Some(45),
      ["best ever", "perfect perfect", "amazing amazing", "great great",
       "buy immediately", "don't waste", "highly recommend to all",
       "best purchase ever", "worst purchase ever", "complete waste"],
      30,
      10, 12, 100),
    BandConfig(70, 25, Some(45)),
    SentimentConfig(
      {"good", "great", "excellent", "amazing", "awesome", "fantastic", "wonderful",
       "outstanding", "superb", "brilliant", "perfect", "love", "recommend", "satisfied",
       "happy", "pleased", "impressed", "solid", "reliable", "quality", "comfortable",
       "smooth", "fast", "responsive", "beautiful", "crisp", "sharp", "premium",
       "exceptional", "remarkable", "incredible", "effective"},
      {"bad", "terrible", "awful", "horrible", "worst", "hate", "disappointed",
       "poor", "useless", "broken", "slow", "expensive", "frustrating", "annoying",
       "uncomfortable", "unreliable", "problem", "issue", "defective", "cheap",
       "overpriced", "limited", "insufficient", "struggle", "lacks", "missing",
       "fail", "failure", "junk", "waste"},
      1, true),
    ProductIdConfig(
      [UrlPattern("/dp/", ""), UrlPattern("/product/", ""), UrlPattern("asin=", "")],
      Some("DEMO_PRODUCT")))

  /** The configuration of amazon_review_analyzer_app.py.py (it has no spam phrases). */
  const AnalyzerApp := Preset(
    DetectorConfig(
      15, 500,
      [ExclamationRun, SuperlativePair, SalesPhrase, StarRating],
      None,
      [],
      0,
      5, 25, 100),
    BandConfig(60, 35, None),
    SentimentConfig(
      {"good", "great", "excellent", "amazing", "awesome", "fantastic", "wonderful",
       "outstanding", "superb", "brilliant", "perfect", "love", "recommend", "satisfied"},
      {"bad", "terrible", "awful", "horrible", "worst", "hate", "disappointed",
       "poor", "useless", "broken", "slow", "expensive", "frustrating", "annoying"},
      0, false),
    ProductIdConfig(
      [UrlPattern("/dp/", ""), UrlPattern("/product/", ""), UrlPattern("asin=", ""),
       UrlPattern("/", "/")],
      None))
}
