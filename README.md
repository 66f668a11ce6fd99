# BoatRacePrediction — a verified model of its prediction core

BoatRacePrediction predicts boat races (six boats per race, boat number =
starting lane 1–6). This project models its prediction core in Dafny:

- **Statistical scorer**: seven weighted components per boat, a
  total, a stable descending sort, ranks 1..N and a "first three boats"
  recommendation.
- **Machine-learning predictor**: the post-processing of a loaded
  model's per-boat probabilities; the statistical fallback used when no
  model is loaded; the expected finishing position; the confidence figure.
- **Feature and label construction** for training: thirteen features per
  boat and one-hot finishing labels in blocks of six.
- **MAGI consensus endpoint**: four provider slots (Claude, OpenAI,
  Gemini, Grok). Each becomes a `disabled`, `success` or `error` result.
  The trifecta token (`d-d-d`) and confidence label are pulled from the
  answer text, and a plurality vote is taken.
- **MAGI panel** (React component): a class whose fields are the
  component's state (`enabled` switches, busy flag, response, error). Its
  methods are the mount effect, the switch toggle and the analyse handler.
- **Betting statistics endpoint**: date-window filter, hits, stakes,
  payouts, profit and return on investment.
- **Scraper parsers**: race information, the race card, race results,
  weather and payout amounts, as functions of the page fragments they read.

## Modules

One module per file:

- `Text` (`text.dfy`): Python `str` operations, ASCII `int()` parsing and printing, `round`.
- `Sorting` (`sorting.dfy`): `list.sort(key=…, reverse=True)` as a stable insertion sort.
- `Entries` (`entries.dfy`): the race-entry record, `x or 0`, rank codes, the `"-".join` recommendation.
- `Statistical` (`statistical.dfy`): the statistical scorer.
- `MlModel` (`ml_model.dfy`): the machine-learning predictor.
- `Features` (`features.dfy`): feature and label construction.
- `Magi` (`magi.dfy`): the MAGI consensus endpoint.
- `MagiPanel` (`magi_panel.dfy`): the MAGI panel component.
- `Results` (`results.dfy`): the betting statistics endpoint.
- `Scraper` (`scraper.dfy`): the scraper's page parsers.

Python's `round(x, n)` is modelled as rounding half up on exact reals
(`Text.Round`). Only three of its properties are used:

- it is within half a unit of the last place of `x`;
- it is monotone;
- it is exact on values that already have `n` decimals.

## Model

| member | source | states |
|---|---|---|
| Text.RoundWithinHalfUnit | backend/app/prediction/statistical.py:24 | `round(x, n)` lies within half a unit of the n-th decimal of `x` |
| Text.RoundMonotone | backend/app/prediction/statistical.py:29 | rounding keeps order, so rounded scores sort like the unrounded ones |
| Text.Strip | backend/app/scraper/boatrace_scraper.py:169 | `get_text(strip=True)`: the result is the slice of the input left after cutting whitespace on both sides (everything cut is whitespace), and it neither starts nor ends with whitespace, so nothing more could be cut |
| Text.RemoveChar | backend/app/scraper/boatrace_scraper.py:299 | `replace(c, "")`: no `c` remains, every other character of the input remains, and the result is no longer than the input |
| Text.RemoveCounts | backend/app/scraper/boatrace_scraper.py:299 | every character other than `c` is kept exactly as often as in the input (same multiset with the count of `c` set to 0) |
| Text.RemoveAppend | backend/app/scraper/boatrace_scraper.py:299 | removal works piece by piece: removing from a concatenation is concatenating the removals, so the kept characters stay in input order |
| Text.RemoveAbsent | backend/app/scraper/boatrace_scraper.py:299 | text without the character is left unchanged |
| Text.IntRoundTrip | backend/app/scraper/boatrace_scraper.py:262 | `int()` reads back every integer that `str()` prints |
| Sorting.SortDesc | backend/app/prediction/statistical.py:29 | the sorted list is a permutation of the input (same multiset) with keys non-increasing |
| Sorting.InsertPermutes | backend/app/prediction/statistical.py:29 | one insertion step of the sort adds exactly the inserted element to the multiset |
| Sorting.InsertKeepsOrder | backend/app/prediction/statistical.py:29 | one insertion step keeps a list sorted from highest to lowest key sorted |
| Sorting.SortDescStable | backend/app/prediction/ml_model.py:55 | the sort is stable: the items with any one key value appear in their input order |
| Entries.RankToNumeric | backend/app/prediction/ml_model.py:91-94 | A1→4, A2→3, B2→1 (each an if-and-only-if), anything else including no class →2; always 1..4 |
| Entries.RecommendationIsTrifecta | backend/app/prediction/statistical.py:45 | with three or more boats numbered 0–9, the recommendation is a `d-d-d` token of the form the MAGI parser extracts |
| Statistical.FieldMax | backend/app/prediction/statistical.py:59 | the field maximum of a rate bounds every boat's value and is attained by one of them |
| Statistical.Divisor | backend/app/prediction/statistical.py:59 | `max(...) or 1` is never zero |
| Statistical.RateShareBounds | backend/app/prediction/statistical.py:58-80 | before rounding: with non-negative rates and weight, each rate share lies in [0, 100·weight], and the boat holding the field maximum gets exactly 100·weight |
| Statistical.RoundedRateShareBounds | backend/app/prediction/statistical.py:58-80 | the stored component `round(…, 2)` lies in [0, round(100·weight, 2)], and the holder of a positive field maximum gets exactly round(100·weight, 2) |
| Statistical.RateShareZeroField | backend/app/prediction/statistical.py:59-62 | when every boat's rate is 0 or missing, the component is 0 for every boat (no division by zero) |
| Statistical.NonZeroSts | backend/app/prediction/statistical.py:83 | every recorded non-zero start timing is taken into account, and no zero one |
| Statistical.MinOf | backend/app/prediction/statistical.py:85 | the fastest start is one of the recorded starts and no recorded start is faster |
| Statistical.MaxOf | backend/app/prediction/statistical.py:86 | the slowest start is one of the recorded starts and no recorded start is slower |
| Statistical.StScaleCases | backend/app/prediction/statistical.py:87-89 | the fastest start scores 100 and the slowest 0 when they differ; a start between them scores between 0 and 100 |
| Statistical.StRawCases | backend/app/prediction/statistical.py:83-90 | over a race: a missing or zero start scores like the slowest (0); equal starts all score 0; every score lies in [0, 100] |
| Statistical.NoStartsScoreZero | backend/app/prediction/statistical.py:91-92 | when no boat has a recorded non-zero start, every boat's start component is 0 |
| Statistical.CourseRate | backend/app/prediction/statistical.py:104-116 | lane 1 gets 55, lanes 2–6 at most 14, an unknown lane 10; always in [2, 55] |
| Statistical.PlacePoints | backend/app/prediction/statistical.py:124 | only the characters 1–6 score, and a score lies in [10, 100] |
| Statistical.CalculateCurrentSeriesScore | backend/app/prediction/statistical.py:118-133 | the loop computes the mean of the placing points (50 when nothing counts), which always lies in [10, 100] |
| Statistical.SeriesTotalBounds | backend/app/prediction/statistical.py:126-131 | the points total lies between 10 and 100 times the number of counted placings |
| Statistical.SeriesScoreRange | backend/app/prediction/statistical.py:118-133 | the series score lies in [10, 100] for every results string, including none or empty |
| Statistical.PlacesOnlySums | backend/app/prediction/statistical.py:128-131 | dropping every character other than 1–6 changes neither the total nor the count |
| Statistical.SeriesIgnoresOtherCharacters | backend/app/prediction/statistical.py:128-131 | the series score depends only on the placing characters of the string |
| Statistical.CalculateScoreDetails | backend/app/prediction/statistical.py:54-102 | the method fills in the seven components of `ScoreDetailsOf`, whose ranges the lemmas above state |
| Statistical.ScoreAll | backend/app/prediction/statistical.py:18-26 | one row per entry, in card order, each scored against the whole race |
| Statistical.AssignRanks | backend/app/prediction/statistical.py:30-31 | ranks are 1, 2, … in list order and nothing else of a row changes |
| Statistical.Predict | backend/app/prediction/statistical.py:9-52 | the scores are the stable descending sort of the scored rows, ranked 1..N with scores non-increasing; the recommendation joins the first three boat numbers; race id 0 for an empty card; the weights are echoed |
| Statistical.EqualScoresKeepCardOrder | backend/app/prediction/statistical.py:29 | boats with equal scores keep their race-card order |
| MlModel.CourseBonus | backend/app/prediction/ml_model.py:131-134 | lane 1 gets 30, lanes 2–6 at most 10, an unknown lane 5; always in [2, 30] |
| MlModel.CourseBonusDecreasing | backend/app/prediction/ml_model.py:133 | the lane bonus strictly decreases from lane 1 to lane 6 |
| MlModel.ExpectedRankBetween | backend/app/prediction/ml_model.py:136-140 | for non-negative probabilities the expected rank Σ(i+1)·pᵢ lies between Σpᵢ and n·Σpᵢ |
| MlModel.ExpectedRankOfDistribution | backend/app/prediction/ml_model.py:136-140 | for a probability distribution over n positions the expected rank lies in [1, n] |
| MlModel.TotalOrOne | backend/app/prediction/ml_model.py:113 | `sum(...) or 1` is never zero and equals the sum when that is non-zero |
| MlModel.SimplePrediction | backend/app/prediction/ml_model.py:96-129 | the two loops give each boat its rounded share of the score total, 0.8 and 0.7 of it, and 7 − 6·share (`FallbackRows`) |
| MlModel.SimpleScorePositive | backend/app/prediction/ml_model.py:103-109 | with non-negative rates a boat's simple score is at least 2, the smallest lane bonus |
| MlModel.ScoresPositive | backend/app/prediction/ml_model.py:113 | with non-negative rates and at least one boat the total is positive, so `or 1` never applies |
| MlModel.FallbackShareInUnit | backend/app/prediction/ml_model.py:116 | before rounding, every fallback winning chance lies in [0, 1] |
| MlModel.FallbackRowBounds | backend/app/prediction/ml_model.py:115-125 | with non-negative rates, every rounded value of a fallback row is in range: the three chances in [0, 1], the expected position in [1, 7] |
| MlModel.RoundedRowBounds | backend/app/prediction/ml_model.py:118-125 | rounding a row built from a chance in [0, 1] keeps the chances in [0, 1] and the expected position in [1, 7] |
| MlModel.FallbackSharesSumToOne | backend/app/prediction/ml_model.py:113-116 | the unrounded fallback winning chances of a race add up to exactly 1 |
| MlModel.Confidence | backend/app/prediction/ml_model.py:142-154 | 0 for no boats; for one boat, twice its winning chance capped at 1 and rounded to 4 places; never above 1; not negative when there are two or more boats, or one boat with a non-negative chance |
| MlModel.ConfidenceOfTopTwo | backend/app/prediction/ml_model.py:147-154 | in any order of the list, the confidence is the rounded, capped doubled gap between the largest and second-largest winning chance |
| MlModel.TopOfSorted | backend/app/prediction/ml_model.py:148-150 | the first two elements of the descending sort are the largest and the second-largest value |
| MlModel.SortedSingle | backend/app/prediction/ml_model.py:152 | with one boat the sorted list holds exactly that boat's chance |
| MlModel.CappedRoundBounds | backend/app/prediction/ml_model.py:154 | `round(min(2c, 1), 4)` is at most 1, and not negative for non-negative `c` |
| MlModel.ModelProbabilities | backend/app/prediction/ml_model.py:36-49 | one row per entry, in order: the model's first three columns and the expected rank over the whole row |
| MlModel.Predict | backend/app/prediction/ml_model.py:28-68 | the rows come from the model if loaded, else from the fallback; they are stably sorted by winning chance, non-increasing; the recommendation, the confidence and race id (0 for no entries) are computed from the sorted rows |
| Features.CourseAdvantage | backend/ml/features.py:81-85 | 1.0 exactly for lane 1, at most 0.4 for lanes 2–6, 0.2 for an unknown lane; always in [0.1, 1] |
| Features.CourseAdvantageDecreasing | backend/ml/features.py:84 | the lane advantage strictly decreases from lane 1 to lane 6 |
| Features.SingleFeatures | backend/ml/features.py:41-85 | thirteen values, one per feature name, for every entry: recorded fields copied; a missing boat number gives boat 1 and lane advantage 1.0; missing rates 0; a missing or zero start timing 0.15 and weight 52; the class scored by `RankToNumeric` (A1 4, A2 3, B2 1, else 2), a missing class 2 (B1); the lane advantage is `CourseAdvantage` of the boat number; the relative win rate is the win rate less the average and the combined rate the mean of motor and boat rates |
| Features.CreateFeatures | backend/ml/features.py:27-39 | one row per entry, in order, each built against the race's average win rate |
| Features.RelativeWinRatesSumToZero | backend/ml/features.py:57 | over a non-empty race the relative win rates add up to 0 |
| Features.OneHot | backend/ml/features.py:105-108 | six flags with 1 exactly at the position of the given boat |
| Features.LabelColumn | backend/ml/features.py:100-108 | a label column has six entries per race |
| Features.CreateLabels | backend/ml/features.py:87-114 | the nested loops produce the three label columns (1st, 2nd, 3rd place) |
| Features.LabelBlock | backend/ml/features.py:100-108 | block i of a label column is the one-hot vector of race i's finisher in that place |
| Features.OneHotCount | backend/ml/features.py:105-108 | a block holds one 1 when the finisher is boat 1–6 and none otherwise (a missing place gives an all-zero block) |
| Magi.CallAiService | backend/app/routers/magi.py:273-323 | disabled exactly when the slot is off or has no key (and then the answer is ignored); success exactly when usable and the call answers, carrying the parsed prediction and confidence, text, tokens and model; error otherwise, carrying the message and the configured model |
| Magi.MatchAt | backend/app/routers/magi.py:114-118 | a match of any of the three prediction patterns at a position captures a `d-d-d` token that occurs in the text |
| Magi.Search | backend/app/routers/magi.py:121 | `re.search`: finds a match exactly when some position matches, and returns the match at a position before which no position matches |
| Magi.Leftmost | backend/app/routers/magi.py:121 | the match position is the leftmost: no earlier position matches |
| Magi.FirstMatch | backend/app/routers/magi.py:120-124 | no result exactly when no pattern matches; otherwise the result is the search result of a pattern before which every pattern found nothing, and a `d-d-d` token contained in the text |
| Magi.ParsePrediction | backend/app/routers/magi.py:111-124 | a prediction is found exactly when the text contains a `d-d-d` token; the header pattern's result if it matches, else the label pattern's, else the bare pattern's |
| Magi.BareSearchIsFirstTrifecta | backend/app/routers/magi.py:117 | the bare pattern returns the leftmost `d-d-d` token of the text |
| Magi.BareSearchFindsTrifecta | backend/app/routers/magi.py:117 | the bare pattern matches exactly when the text contains a trifecta, and so whenever either earlier pattern matches |
| Magi.ParseConfidence | backend/app/routers/magi.py:127-140 | a label is one of 高/中/低 and is only ever returned for text containing 自信 |
| Magi.ConfidenceByPresence | backend/app/routers/magi.py:127-140 | the regex fallback never decides: the result is None without 自信, else 高 over 中 over 低 by mere presence |
| Magi.Distinct | backend/app/routers/magi.py:338 | the distinct tokens: the same set as the votes, no repeats |
| Magi.DistinctFirstSeen | backend/app/routers/magi.py:338 | the distinct tokens are in first-seen order, the insertion order of `Counter` |
| Magi.Counter | backend/app/routers/magi.py:338 | one entry per distinct token, in first-seen order, holding its number of votes |
| Magi.CounterSum | backend/app/routers/magi.py:338 | the counts add up to the number of votes |
| Magi.MostCommon | backend/app/routers/magi.py:341 | the chosen entry has the largest count, and every earlier entry a strictly smaller one |
| Magi.CalculateConsensus | backend/app/routers/magi.py:326-347 | no winner exactly when no successful result has a prediction; otherwise the winner is the plurality winner, and the rate is its share of the counted predictions, in (0, 1]; the vote detail is the full count |
| Magi.PluralityWinnerUnique | backend/app/routers/magi.py:341-343 | the plurality winner, with ties to the first seen, is unique |
| Magi.WinnerIsPlurality | backend/app/routers/magi.py:341-343 | the first entry with the largest count is the plurality winner |
| Magi.MagiAnalyze | backend/app/routers/magi.py:352-404 | 404 "Race not found" or "No entries found"; otherwise a response whose results are the fan-out and whose consensus, rate, detail and active count are computed from them |
| Magi.VotesNeedSuccess | backend/app/routers/magi.py:329-332 | only successful results vote |
| Magi.VoteAccounting | backend/app/routers/magi.py:392-395 | the vote counts sum to the counted predictions, which are at most the active count, which is at most 4 |
| Magi.DisabledSlotIsNotCalled | backend/app/routers/magi.py:281-287 | what a disabled slot's provider would answer has no effect on the response |
| Magi.CountTwoAgainstOne | backend/app/routers/magi.py:338 | counting a, a, b gives a:2 then b:1 |
| Magi.TwoAgainstOne | backend/app/routers/magi.py:326-345 | two providers for `a`, one for `b`, one error: `a` wins with rate 2/3 |
| Magi.TieGoesToFirstSeen | backend/app/routers/magi.py:341-344 | one vote each for `a` (earlier slot) and `b`, one error, one disabled: `a` wins with rate 1/2 |
| MagiPanel.StoredKey | frontend/src/components/MAGIPanel.tsx:47-52 | an empty stored value counts as no key: a key exists exactly when a non-empty value is stored |
| MagiPanel.EnabledCount | frontend/src/components/MAGIPanel.tsx:120 | the number of switched-on providers, at most 4 |
| MagiPanel.BuildConfig | frontend/src/components/MAGIPanel.tsx:83-100 | each slot carries its switch and the key stored now, and no model |
| MagiPanel.UsableIffEnabledWithKey | frontend/src/components/MAGIPanel.tsx:83-100 | the backend will call a slot exactly when it is switched on and a key is stored |
| MagiPanel.RejectionMessage | frontend/src/components/MAGIPanel.tsx:105 | never empty; the server's detail when it is non-empty, else the error's message when that is non-empty, else the fixed failure text |
| MagiPanel.SortedVotes | frontend/src/components/MAGIPanel.tsx:253-254 | the vote detail is shown as a permutation of itself, counts non-increasing |
| MagiPanel.Panel.Mount | frontend/src/components/MAGIPanel.tsx:46-62 | a provider starts switched on exactly when a key is stored for it; not busy, no response, no error |
| MagiPanel.Panel.ToggleService | frontend/src/components/MAGIPanel.tsx:111-118 | without a key: an error naming the provider and no switch changes; with a key: only that switch flips; keeps every switched-on provider backed by a key |
| MagiPanel.Panel.HandleAnalyze | frontend/src/components/MAGIPanel.tsx:64-102 | fewer than two switches on: the quorum error and no request; otherwise busy, error and response cleared, and the request built from the switches and keys; if every switch on has a key, the backend will call at least two providers; a press of the enabled button (not busy, two or more switches on, as the button's `disabled` test at line 190 has it) always sends a request |
| MagiPanel.Panel.ReceiveAnalysis | frontend/src/components/MAGIPanel.tsx:102-108 | the reply is stored, or turned into an error message; in both cases the panel stops being busy |
| MagiPanel.QuorumReachesBackend | frontend/src/components/MAGIPanel.tsx:72-76 | the backend calls at most the switched-on providers, and exactly those when each has a key |
| MagiPanel.GuardCountsSwitchesNotKeys | frontend/src/components/MAGIPanel.tsx:72-76 | two switches on whose keys were removed pass the guard, yet the backend calls no provider |
| Results.Window | backend/app/routers/results.py:64-73 | the query keeps only predictions inside the window, and keeps every one of them |
| Results.WindowCounts | backend/app/routers/results.py:64-73 | each prediction inside the window is kept as often as it is stored, and none outside it |
| Results.WindowAppend | backend/app/routers/results.py:64-73 | the query keeps the stored order: filtering two batches one after the other is joining their filtered parts |
| Results.WindowSingle | backend/app/routers/results.py:66-73 | a single prediction is kept exactly when it lies in the window |
| Results.NoBoundsKeepsAll | backend/app/routers/results.py:66 | with neither bound every prediction is kept |
| Results.Hits | backend/app/routers/results.py:76 | hits never exceed the number of predictions |
| Results.HitRate | backend/app/routers/results.py:84 | in [0, 1]; 0 with no predictions or no hits; 1 when every prediction hit |
| Results.Roi | backend/app/routers/results.py:88 | 0 with no stake; otherwise positive exactly when the return exceeds the stake and zero exactly when they are equal; never below −100 for non-negative returns |
| Results.RoiSign | backend/app/routers/results.py:88 | the sign of `(return / bet − 1)·100` follows return − bet, bounded below by −100 |
| Results.GetStatistics | backend/app/routers/results.py:57-89 | the counts and totals are over the windowed predictions; hits ≤ total; the hit rate is hits / total (0 with no predictions), in [0, 1]; profit = return − bet; with a positive stake the return on investment is (return / bet − 1)·100, whose sign is the sign of the profit, and 0 otherwise |
| Results.TotalsAppend | backend/app/routers/results.py:75-79 | hits, stakes and payouts add up over two batches of predictions |
| Results.MissingAmountsCountAsZero | backend/app/routers/results.py:78-79 | with no amounts recorded, both totals are 0 |
| Scraper.VenueName | backend/app/scraper/boatrace_scraper.py:158 | the venue of a known code (one of 24), 不明 otherwise |
| Scraper.ClassifyGrade | backend/app/scraper/boatrace_scraper.py:171-182 | SG exactly when the label contains SG; G1 exactly when it contains G1 or GⅠ and not SG; G2 exactly when it contains G2 or GⅡ and no higher mark; G3 exactly when it contains G3 or GⅢ and no higher mark; 一般 without a label |
| Scraper.GradePrecedence | backend/app/scraper/boatrace_scraper.py:175-182 | SG beats G1, and G2 beats G3; 一般 exactly when no grade mark occurs |
| Scraper.MixedLabelIsG2 | backend/app/scraper/boatrace_scraper.py:179-182 | the label "G2・G3" is classified G2 |
| Scraper.FirstPresent | backend/app/scraper/boatrace_scraper.py:290-292 | the first weather key, in the map's order, that occurs in the text |
| Scraper.ExtractWeather | backend/app/scraper/boatrace_scraper.py:282-293 | 不明 exactly when none of 晴, 曇, 雨, 雪 occurs; otherwise the first of them that occurs |
| Scraper.ClearWins | backend/app/scraper/boatrace_scraper.py:284-292 | text mentioning 晴 is always read as 晴 |
| Scraper.ParsePayout | backend/app/scraper/boatrace_scraper.py:295-302 | a text that is not an integer once separators are dropped gives 0 |
| Scraper.CleanOfPrinted | backend/app/scraper/boatrace_scraper.py:299 | removing separators from a printed number followed by 円 leaves the number |
| Scraper.PayoutRoundTrip | backend/app/scraper/boatrace_scraper.py:295-302 | a payout printed as digits with 円 is read back exactly |
| Scraper.PayoutExample | backend/app/scraper/boatrace_scraper.py:299-300 | "¥12,340" reads as 12340 |
| Scraper.ParseRaceInfo | backend/app/scraper/boatrace_scraper.py:148-190 | defaults (venue name lookup, 一般, 1800 m, empty name, no weather), each overridden by its element when present |
| Scraper.EntryOfRow | backend/app/scraper/boatrace_scraper.py:200-235 | every rate 0.0, motor and boat numbers empty; the name, class and registration number stay empty unless the row has three cells |
| Scraper.ParseEntries | backend/app/scraper/boatrace_scraper.py:192-239 | at most six entries, one per row in order, numbered 1, 2, … |
| Scraper.ParseResult | backend/app/scraper/boatrace_scraper.py:241-280 | six places, each read from its row or 0; the trifecta only with its block and combination; the payout only with both |
| Scraper.OnlySixRowsRead | backend/app/scraper/boatrace_scraper.py:259-265 | rows after the sixth never matter, and an unreadable row leaves its place 0 |

Where the system's documented behaviour and its code disagree, the model
follows the code:

- **Statistical ties**: boats with equal scores keep race-card order, since
  the sort is stable. They are not re-ordered by boat number.
- **Empty card or negative weights**: neither is rejected by the scorer.
  An empty card gives race id 0 and no scores.
- **Start-timing score**: `(max − st) / range · 100`; a missing start
  counts as the slowest.
- **No backend quorum**: the consensus endpoint calls whatever slots are
  usable. The only quorum check is the panel's, and it counts switches,
  not keys (`GuardCountsSwitchesNotKeys`).
- **Consensus ties**: a tie for the most votes still has a winner, the
  token seen first (`TieGoesToFirstSeen`).
- **Consensus rate**: the winner's votes divided by the number of counted
  predictions. The number of providers that took part is not used.

## Left out

- HTTP calls to the AI providers and to boatrace.jp, the request delays,
  and `asyncio.gather` concurrency. A provider's answer is an input
  (`Provider -> CallOutcome`). The four calls are evaluated one after
  another in the order `results` has.
- The database: queries, joins and saves. The race and entry lookups of
  `magi_analyze` become inputs (`raceFound`, `entryCount`). The statistics
  query becomes a filter over a sequence of predictions with day-number
  dates.
- HTML parsing with BeautifulSoup: each parser takes the texts of the
  elements it selects, with `None` for a missing element.
  `get_text(strip=True)` is `Text.Strip`.
- The trained model (`joblib.load`, `predict_proba`) and
  `_extract_features`. The model's output rows are an input, or `None`
  when no model is loaded.
- MlModel.Predict: requires one model row per entry, each with at least
  three columns. The source would fail with an index error otherwise.
- Prompt text (`MAGI_PROMPT`, `format_entries_text`), the `/models` and
  `/info` endpoints, and all rendering and styling of the panel.
- The unknown-provider branch of `call_ai_service`: the four providers
  are a closed datatype.
- `localStorage` is a map from provider to stored string, read at the
  moment of each handler.
- `round`: Python rounds binary floats half to even. The model rounds
  exact reals half up. All other arithmetic is on exact reals, not
  floating point.
- `int()`: only an optional sign followed by ASCII digits, with
  surrounding whitespace, is read. Underscores between digits and
  non-ASCII digits, which Python also accepts, are treated as errors.
  Likewise `\d` in the MAGI answer patterns matches only the ASCII digits
  0–9, while Python's `re` on a `str` also matches other Unicode decimal
  digits (full-width `１`, for instance).
- Dictionaries as features input: a missing key and a key holding `None`
  are merged into `None`. Every field is read with a default that treats
  the two alike. The exception is `boat_no` holding `None`, which makes the
  source fail in `float(None)`; the model gives it boat 1.
- Features: the DataFrame and numpy wrapping of the rows and labels.
  Rows are sequences of reals; labels are sequences of integers.
- Statistical.Predict: `BoatScore` objects are records, and the source's
  per-row dictionaries are not modelled separately.
