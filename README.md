# Review-trust scoring engine (Reviews-analyzer)

Reviews-analyzer is a Streamlit application that judges Amazon product
reviews. Its decision logic is a small review-trust engine:

- **Suspicion scorer** (`FakeReviewDetector.calculate_suspicion_score`). It adds
  up to six weighted signals for one review and clamps the total to 100:
  - the review is not a verified purchase;
  - the content is too short or unusually long;
  - suspicious regular-expression patterns match;
  - literal spam phrases appear;
  - an extreme rating has no helpful votes;
  - one token dominates the text.
- **Threshold classifier** (`FakeReviewDetector.classify_reviews`). It maps each
  score to Genuine, Suspicious or Fake, and in one application also to a
  High, Medium or Low confidence. It writes these into the review table row
  by row.
- **Lexicon sentiment analyzer** (`SentimentAnalyzer` / `TextProcessor`). It
  counts the lower-cased tokens that appear in fixed positive and negative
  word sets. It returns a label and a compound ratio `(pos - neg) / total`.
- **ASIN extraction** (`AmazonReviewScraper.extract_product_id`). It takes the
  10-character `[A-Z0-9]` product id from the first URL pattern that matches,
  and otherwise returns a default.

The repository has two copies of this engine: `streamlit_app.py.py` and
`amazon_review_analyzer_app.py.py`. Their constants differ. This model is
one engine whose constants form a `Preset` record
(`config.dfy`). `StreamlitApp` and `AnalyzerApp` reproduce the two files.
Beyond the constants, the analyzer copy has no pattern cap, no clamp of the
compound score and no spam-phrase step. The streamlit copy's clamp of the
compound score never takes effect (`ClampIsInactive`).

- `text.dfy` (module `Text`) models Python's `str.split()`, `str.lower()`,
  the substring test `in`, and the `Counter(...).most_common(1)` count.
- `scoring.dfy` (module `Scoring`) holds the signals, with the score as a
  specification function, `SuspicionScore`. The method
  `CalculateSuspicionScore` accumulates the score step by step, as the
  source does, and is proved to compute it.
- `classifier.dfy` (module `Classifier`) holds the score bands. The review
  table is a class whose columns `ClassifyReviews` fills in place.
- `sentiment.dfy` (module `SentimentAnalysis`) holds the sentiment label and
  the compound score.
- `product_id.dfy` (module `ProductId`) holds the leftmost-match search of
  each URL pattern and the first-match loop over the pattern list.

Regular-expression matching of the suspicious patterns is a parameter, the
`Matcher`. The one exception is the run of three `!`, which is decided by a
substring test. The two ratio thresholds are stated in integers:
`most_common / len > 0.12` becomes `100 * most_common > 12 * len`, and
0.25 becomes 25/100.

## Model

| member | source | states |
|---|---|---|
| Text.Lower | streamlit_app.py.py:268-269 | lower-casing keeps the length, turns each upper-case ASCII letter 'A'..'Z' into its lower-case letter (code point + 32), leaves no upper-case ASCII letter and keeps every other character |
| Text.Words | streamlit_app.py.py:277 | `str.split()` yields only non-empty tokens without whitespace |
| Text.WordsAroundSpace | streamlit_app.py.py:270 | splitting `a + c + b` at any whitespace character `c` (the blank of the full text in particular) gives the tokens of `a` followed by those of `b`; no token spans `c` |
| Text.WordsOfJoinSpace | streamlit_app.py.py:304 | splitting a single-space join of tokens gives back exactly those tokens |
| Text.ContainsIffOccursAt | streamlit_app.py.py:293 | `phrase in full_text` holds exactly when the phrase occurs at some position of the text |
| Text.MostCommonCountIsMaximum | streamlit_app.py.py:306-307 | the `most_common(1)` count is at least the count of every token, some token attains it, and it is at most the number of tokens |
| Text.MostCommonFrequency | streamlit_app.py.py:306-307 | building the `Counter` token by token and taking its largest entry yields the most-common count |
| Scoring.PatternMatches | streamlit_app.py.py:284-287 | the pattern count is at most the number of patterns |
| Scoring.SpamHits | streamlit_app.py.py:291-294 | the spam count is at most the number of phrases |
| Scoring.RepetitionSignal | streamlit_app.py.py:304-309 | the repetition signal is 0 or 20, and 0 whenever there are no more tokens than the minimum |
| Scoring.SuspicionScore | streamlit_app.py.py:311 | the score is at most 100 and at most the raw sum, and it is either 100 or the raw sum |
| Scoring.CalculateSuspicionScore | streamlit_app.py.py:265-311 | the step-by-step score equals the six-signal specification clamped to 100; it is at most 100 and is either 100 or the raw sum; the analyzer copy (amazon_review_analyzer_app.py.py:149-185) is the same engine with the pattern weight added inside the loop, no cap and no spam step |
| Scoring.PatternMatchesCountsMatchingPatterns | streamlit_app.py.py:284-288 | the pattern count is the number of distinct patterns that match: each counts once however often it occurs |
| Scoring.SpamHitsCountsOccurringPhrases | streamlit_app.py.py:291-295 | the spam count is the number of distinct phrases that occur: each counts once however often it occurs |
| Scoring.AllPatternsMatch | streamlit_app.py.py:284-288 | when every pattern matches, the count is the length of the pattern list |
| Scoring.PatternMatchesAtLeastOne | streamlit_app.py.py:284-288 | one matching pattern makes the count at least one |
| Scoring.SuspicionScoreClamp | streamlit_app.py.py:311 | the final score lies in [0, 100]; a raw sum up to 100 is kept and a larger one becomes 100 |
| Scoring.RawScoreCeilings | streamlit_app.py.py:265-311 | the raw sum never exceeds 165 (streamlit preset) or 150 (analyzer preset) |
| Scoring.RawScoreCeilingIsReached | streamlit_app.py.py:265-311 | the unverified, unvoted 5-star review "perfect perfect amazing amazing" / seven times "great" reaches the streamlit raw sum of 165 and is clamped to 100, given only that the superlative, repeated-"great" and repeated-"perfect" expressions match it |
| Scoring.ClampIsReachable | amazon_review_analyzer_app.py.py:149-185 | the unverified, unvoted 5-star review "!!! amazing perfect buy now 5 stars" has a raw sum of at least 115 (streamlit) and 130 (analyzer), both clamped to 100, given only that the superlative, sales-phrase and star-rating expressions match it |
| Scoring.PatternCapReached | streamlit_app.py.py:288 | the streamlit pattern signal is at its cap of 45 exactly when at least three patterns match |
| Scoring.ThreeHitsReachCap | streamlit_app.py.py:284-288 | three distinct matching streamlit patterns make the count at least three and the pattern signal 45 |
| Scoring.UnverifiedAddsThirty | streamlit_app.py.py:273-274 | flipping `verified` to false adds exactly 30 to the raw sum and never lowers the final score |
| Scoring.UnvotedExtremeRatingAddsFifteen | streamlit_app.py.py:298-301 | for a rating of 1 or 5, zero helpful votes scores exactly 15 more than any positive number of votes |
| Scoring.LengthSignalBands | streamlit_app.py.py:277-281 | streamlit: 25 exactly below 20 content tokens, 10 exactly above 400, 0 exactly in between, so at most one fires; analyzer (amazon_review_analyzer_app.py.py:161-165): the same with 15 and 500 |
| Scoring.LengthSignalIgnoresTitle | streamlit_app.py.py:277 | the length signal counts content tokens only; changing the title never changes it |
| Scoring.PatternSignalValues | streamlit_app.py.py:288 | streamlit: the pattern signal is `min(15 * matches, 45)` with at most 6 matches; analyzer (amazon_review_analyzer_app.py.py:168-170): 15 per matching pattern, uncapped, at most 4 matches and so at most 60 |
| Scoring.SpamSignalValues | streamlit_app.py.py:291-295 | streamlit: the spam signal is `min(10 * phrases found, 30)`; the analyzer preset adds no spam signal |
| Scoring.FullTextWords | streamlit_app.py.py:270 | the tokens of the full text are the title tokens followed by the content tokens |
| Scoring.RepetitionSilentOnFewTokens | streamlit_app.py.py:304-305 | the repetition signal never fires when title and content together have no more tokens than the minimum |
| Scoring.RepetitionFiresIff | streamlit_app.py.py:304-309 | the repetition signal is 0 or 20, and it is 20 exactly when there are more tokens than the minimum and some token's share exceeds the threshold ratio |
| Scoring.RepetitionFiveOfTwelve | amazon_review_analyzer_app.py.py:178-183 | one token 5 times among 12 trips the repetition signal of both presets (5/12 exceeds 0.12 and 0.25) |
| Classifier.Classify | streamlit_app.py.py:331-342 | a confidence is reported exactly when the configuration has a confidence tier |
| Classifier.BandsPartition | amazon_review_analyzer_app.py.py:204-209 | with ordered thresholds the three classifications partition the integers: Fake exactly above the upper threshold, Suspicious exactly between the thresholds, Genuine exactly at or below the lower one |
| Classifier.ClassificationMonotone | streamlit_app.py.py:331-342 | a higher score never gets a milder classification |
| Classifier.StreamlitBands | streamlit_app.py.py:331-342 | Fake/High exactly from 71, Suspicious/Medium exactly for 46-70, Suspicious/Low exactly for 26-45, Genuine/High exactly up to 25 |
| Classifier.AnalyzerBands | amazon_review_analyzer_app.py.py:204-209 | Fake exactly from 61, Suspicious exactly for 36-60, Genuine exactly up to 35, never with a confidence |
| Classifier.UnverifiedSalesPitchIsFake | streamlit_app.py.py:265-342 | an unverified 10-token 5-star review without votes that uses a sales phrase scores at least 85 and is Fake, with High confidence in the streamlit preset |
| Classifier.NoRedFlagsIsGenuine | streamlit_app.py.py:265-342 | a verified review of ordinary length, with votes or a middle rating, and no pattern or spam match scores at most 20 and is Genuine |
| Classifier.ReviewFrame.constructor | streamlit_app.py.py:243 | a table built from the review records holds those rows and none of the columns the classifier adds (they are filled in by `classify_reviews`, streamlit_app.py.py:319-326) |
| Classifier.ClassifyReviews | streamlit_app.py.py:313-348 | the rows are untouched; the score, classification and confidence columns get exactly one entry per row, in row order, each the one the scorer and the bands give that row; the analyzer copy (amazon_review_analyzer_app.py.py:187-213) writes no confidence column, which then stays as it was |
| SentimentAnalysis.LexiconCount | streamlit_app.py.py:372-373 | a lexicon count is at most the number of tokens |
| SentimentAnalysis.AnalyzeSentiment | streamlit_app.py.py:368-380 | a Positive text has more positive than negative words, a Negative text more negative words, and a Neutral text counts within the margin of each other; the analyzer copy (amazon_review_analyzer_app.py.py:227-238) is the same with margin 0 |
| SentimentAnalysis.AnalyzeSentimentCases | streamlit_app.py.py:368-380 | Positive exactly when the positive count exceeds the negative count by more than the margin, Negative symmetrically, Neutral otherwise |
| SentimentAnalysis.PresetMargins | amazon_review_analyzer_app.py.py:227-238 | the streamlit preset needs a lead of two, the analyzer preset a lead of one |
| SentimentAnalysis.NoTokensIsNeutral | streamlit_app.py.py:390-391 | a text without tokens is Neutral with compound score 0.0 |
| SentimentAnalysis.EmptyTextIsNeutral | amazon_review_analyzer_app.py.py:247-248 | the empty text is Neutral with compound score 0.0 |
| SentimentAnalysis.RatioInUnitInterval | amazon_review_analyzer_app.py.py:250 | a difference no larger than the total gives a ratio in [-1, 1] with the sign of the difference |
| SentimentAnalysis.CompoundScore | streamlit_app.py.py:382-394 | the compound score lies in [-1, 1], clamped or not; the analyzer copy (amazon_review_analyzer_app.py.py:240-250) has no clamp |
| SentimentAnalysis.ClampIsInactive | streamlit_app.py.py:393-394 | the clamp to [-1, 1] never changes the compound score |
| SentimentAnalysis.CompoundScoreSign | streamlit_app.py.py:382-394 | the compound score is positive exactly when the positive count is larger and negative exactly when the negative count is larger |
| SentimentAnalysis.LabelAgreesWithCompound | streamlit_app.py.py:368-394 | a Positive label means a positive compound score and a Negative label a negative one; with margin 0 these are equivalences |
| SentimentAnalysis.DisjointCountsFit | streamlit_app.py.py:372-373 | with disjoint lexicons the two counts together are at most the number of tokens |
| SentimentAnalysis.PresetLexiconsDisjoint | streamlit_app.py.py:352-366 | no word is both positive and negative in either preset |
| SentimentAnalysis.PresetCountsFit | amazon_review_analyzer_app.py.py:217-231 | under either preset the positive and negative counts together are at most the number of tokens |
| ProductId.SearchFrom | streamlit_app.py.py:85 | the search returns the leftmost position from which the pattern matches, and none exactly when no position matches |
| ProductId.Search | streamlit_app.py.py:85-87 | a capture is a 10-character `[A-Z0-9]` ASIN, and there is none exactly when the pattern matches nowhere |
| ProductId.SearchCapturesLeftmost | streamlit_app.py.py:85-87 | when `i` is the leftmost position where the pattern matches, `match.group(1)` is exactly the ten characters after the prefix at `i` |
| ProductId.CaptureFrom | streamlit_app.py.py:84-87 | whatever the pattern list captures is an ASIN (that there is no capture exactly when no pattern matches is `CaptureFromNoneIff`) |
| ProductId.CaptureFromNoneIff | streamlit_app.py.py:84-88 | there is no capture from a given index on exactly when none of the patterns from that index on matches |
| ProductId.ProductIdOf | streamlit_app.py.py:76-88 | the product id is an ASIN captured from the URL or the fallback; no pattern matches exactly when nothing is captured and the fallback comes back |
| ProductId.FirstMatchFrom | streamlit_app.py.py:84-87 | the index of the first matching pattern lies within the list |
| ProductId.ExtractProductId | streamlit_app.py.py:76-88 | trying the patterns in order and returning the first capture gives the first-match result, or the fallback; the analyzer copy (amazon_review_analyzer_app.py.py:38-51) has a fourth pattern and the fallback None |
| ProductId.CaptureFromIsFirstMatch | streamlit_app.py.py:84-87 | every pattern before the first matching one fails, and the capture is that pattern's, or none when no pattern matches |
| ProductId.ProductIdOfResult | streamlit_app.py.py:76-88 | the result is the ASIN from the first matching pattern, or the fallback exactly when no pattern matches |
| ProductId.FallbackOnlyWithoutMatch | streamlit_app.py.py:88 | "DEMO_PRODUCT" (streamlit) and None (analyzer) come back exactly when none of their patterns matches |
| ProductId.DpLinkYieldsAsin | streamlit_app.py.py:79 | a `/dp/<ASIN>` link whose head cannot start an earlier "/dp/" yields that ASIN in both presets |
| ProductId.MacBookExampleLink | streamlit_app.py.py:439 | the MacBook example link yields B073Q5R6VR |
| ProductId.ShortExampleLink | streamlit_app.py.py:442 | the short example link yields B08N5WRWNW |
| ProductId.BareAsinSegment | amazon_review_analyzer_app.py.py:44 | for a URL `host + "/" + ASIN + "/" + rest` whose `host` holds no '/' and on which the three shared patterns find nothing, the analyzer preset's fourth pattern yields that ASIN while the streamlit preset falls back to "DEMO_PRODUCT" |

## Left out

- Scoring.CalculateSuspicionScore: the five regular expressions other than the `!` run are not modelled. A `Matcher` parameter decides them on the lower-cased full text, so the word-boundary (`\b`), `.*`-per-line and `re.IGNORECASE` semantics are not captured.
- Text.Lower: `str.lower()` is modelled on the ASCII letters only; Unicode case mapping is not captured.
- Scoring.RepetitionSignal: the thresholds 0.12 and 0.25 are compared as exact fractions. Float rounding of `most_common / len(words)` is not modelled.
- SentimentAnalysis.CompoundScore: the compound score is an exact real; floating-point division is not modelled.
- The `.get(..., default)` fallbacks of `calculate_suspicion_score` are not modelled. `classify_reviews` always passes every field, so a `Review` always has all five.
- `str()` conversion of non-string cells (NaN, numbers) is not modelled. Title and content are strings, the rating is an integer and the vote count is a natural number.
- `ReviewFrame` holds only the rows and the three columns the classifier writes; the other pandas DataFrame behaviour is not part of this model.
- `scrape_reviews_simulation` is not modelled: it uses hard-coded sample data, `time.sleep` progress bars and random shuffling.
- The Streamlit user interface, `main()` and the display-only "Detection Reasons" heuristics are not modelled. This includes `main()` applying the sentiment analyzer to each row.
- Plotly charts, CSV export and the unused `requests`/BeautifulSoup imports are not modelled. `app.py` is not part of this model: it checks the filesystem, installs packages and starts the server.
