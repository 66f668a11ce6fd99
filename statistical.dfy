/** The weighted statistical scorer: seven per-boat components, each scaled
    by its weight, summed, then the boats sorted by score and ranked. */
module Statistical {
  import opened Text
  import opened Sorting
  import opened Entries

  /** `PredictionWeights`. */
  datatype Weights = Weights(
    winRateAll: real,
    winRateLocal: real,
    motorRate: real,
    boatRate: real,
    avgSt: real,
    courseRate: real,
    currentSeries: real)

  const DefaultWeights: Weights := Weights(0.20, 0.15, 0.15, 0.10, 0.15, 0.15, 0.10)

  // ---------------------------------------------------------------------------
  // Rate components, normalised against the field maximum

  /** The four rate columns that are normalised against the field. */
  datatype RateField = WinRateAll | WinRateLocal | MotorRate | BoatRate

  /** `entry.<field> or 0`. */
  function FieldValue(e: RaceEntry, f: RateField): real {
    match f
    case WinRateAll => OrZero(e.winRateAll)
    case WinRateLocal => OrZero(e.winRateLocal)
    case MotorRate => OrZero(e.motorRate2)
    case BoatRate => OrZero(e.boatRate2)
  }

  function FieldWeight(w: Weights, f: RateField): real {
    match f
    case WinRateAll => w.winRateAll
    case WinRateLocal => w.winRateLocal
    case MotorRate => w.motorRate
    case BoatRate => w.boatRate
  }

  /** `max(e.<field> or 0 for e in all_entries)`. */
  function FieldMax(all: seq<RaceEntry>, f: RateField): (m: real)
    requires |all| > 0
    ensures forall k | 0 <= k < |all| :: FieldValue(all[k], f) <= m
    ensures exists k | 0 <= k < |all| :: FieldValue(all[k], f) == m
  {
    if |all| == 1 then FieldValue(all[0], f)
    else
      var rest := FieldMax(all[..|all| - 1], f);
      var last := FieldValue(all[|all| - 1], f);
      if last > rest then last else rest
  }

  /** `... or 1`: a zero maximum is replaced by one. */
  function Divisor(m: real): (d: real)
    ensures d != 0.0
  {
    if m == 0.0 then 1.0 else m
  }

  /** A rate component before rounding: the boat's value as a share of the
      field maximum, times 100 and the weight. */
  function RateShare(e: RaceEntry, all: seq<RaceEntry>, f: RateField, w: Weights): real
    requires |all| > 0
  {
    Share(FieldValue(e, f), FieldMax(all, f), FieldWeight(w, f))
  }

  /** `value / (max or 1) * 100 * weight`. */
  function Share(v: real, m: real, c: real): real {
    v / Divisor(m) * 100.0 * c
  }

  /** With non-negative values and weight, a boat of the race scores between
      0 and 100 times the weight, and the holder of a positive field maximum
      scores exactly that. */
  lemma RateShareBounds(all: seq<RaceEntry>, i: nat, f: RateField, w: Weights)
    requires i < |all|
    requires forall k | 0 <= k < |all| :: FieldValue(all[k], f) >= 0.0
    requires FieldWeight(w, f) >= 0.0
    ensures 0.0 <= RateShare(all[i], all, f, w) <= 100.0 * FieldWeight(w, f)
    ensures FieldValue(all[i], f) == FieldMax(all, f) > 0.0 ==>
              RateShare(all[i], all, f, w) == 100.0 * FieldWeight(w, f)
  {
    var v, m, c := FieldValue(all[i], f), FieldMax(all, f), FieldWeight(w, f);
    assert 0.0 <= v <= m;
    ShareBounds(v, m, c);
  }

  /** The stored component, rounded to two places, lies between 0 and
      100 times the weight rounded the same way (which may exceed 100 times
      the weight by up to half a unit), and the holder of a positive field
      maximum gets exactly that rounded bound. */
  lemma RoundedRateShareBounds(all: seq<RaceEntry>, i: nat, f: RateField, w: Weights)
    requires i < |all|
    requires forall k | 0 <= k < |all| :: FieldValue(all[k], f) >= 0.0
    requires FieldWeight(w, f) >= 0.0
    ensures 0.0 <= Round(RateShare(all[i], all, f, w), 2) <= Round(100.0 * FieldWeight(w, f), 2)
    ensures FieldValue(all[i], f) == FieldMax(all, f) > 0.0 ==>
              Round(RateShare(all[i], all, f, w), 2) == Round(100.0 * FieldWeight(w, f), 2)
  {
    var share, top := RateShare(all[i], all, f, w), 100.0 * FieldWeight(w, f);
    RateShareBounds(all, i, f, w);
    RoundZero(2);
    RoundMonotone(0.0, share, 2);
    RoundMonotone(share, top, 2);
  }

  /** When every boat's value is 0 (so the maximum is 0 and the divisor
      falls back to 1), every boat scores 0. */
  lemma RateShareZeroField(all: seq<RaceEntry>, i: nat, f: RateField, w: Weights)
    requires i < |all|
    requires forall k | 0 <= k < |all| :: FieldValue(all[k], f) >= 0.0
    ensures FieldMax(all, f) == 0.0 ==> RateShare(all[i], all, f, w) == 0.0
  {
    var v, m := FieldValue(all[i], f), FieldMax(all, f);
    assert 0.0 <= v <= m;
    if m == 0.0 {
      assert v == 0.0 && Divisor(m) == 1.0;
      assert v / Divisor(m) == 0.0;
    }
  }

  /** The arithmetic of a rate share, for a value between 0 and the maximum. */
  lemma ShareBounds(v: real, m: real, c: real)
    requires 0.0 <= v <= m && c >= 0.0
    ensures 0.0 <= Share(v, m, c) <= 100.0 * c
    ensures v == m > 0.0 ==> Share(v, m, c) == 100.0 * c
  {
    if m > 0.0 {
      ShareOfMax(v, m);
      ScaleUnit(v / m, 100.0 * c);
      assert v / m * 100.0 * c == (v / m) * (100.0 * c);
    }
  }

  lemma ShareOfMax(v: real, m: real)
    requires 0.0 <= v <= m && m > 0.0
    ensures 0.0 <= v / m <= 1.0
    ensures v == m ==> v / m == 1.0
  {
  }

  lemma ScaleUnit(x: real, c: real)
    requires 0.0 <= x <= 1.0 && c >= 0.0
    ensures 0.0 <= x * c <= c
  {
  }

  // ---------------------------------------------------------------------------
  // Start timing, where lower is better

  /** `[e.avg_start_timing for e in all_entries if e.avg_start_timing]`:
      the recorded, non-zero start timings. */
  function NonZeroSts(all: seq<RaceEntry>): (sts: seq<real>)
    ensures |sts| <= |all|
    ensures forall k | 0 <= k < |sts| :: sts[k] != 0.0
    ensures forall k | 0 <= k < |all| :: all[k].avgStartTiming.Some? && all[k].avgStartTiming.value != 0.0
              ==> all[k].avgStartTiming.value in sts
  {
    if all == [] then []
    else
      var e := all[|all| - 1];
      NonZeroSts(all[..|all| - 1]) +
        (if e.avgStartTiming.Some? && e.avgStartTiming.value != 0.0 then [e.avgStartTiming.value] else [])
  }

  function MinOf(s: seq<real>): (m: real)
    requires |s| > 0
    ensures m in s && forall k | 0 <= k < |s| :: m <= s[k]
  {
    if |s| == 1 then s[0]
    else
      var rest := MinOf(s[..|s| - 1]);
      if s[|s| - 1] < rest then s[|s| - 1] else rest
  }

  function MaxOf(s: seq<real>): (m: real)
    requires |s| > 0
    ensures m in s && forall k | 0 <= k < |s| :: s[k] <= m
  {
    if |s| == 1 then s[0]
    else
      var rest := MaxOf(s[..|s| - 1]);
      if s[|s| - 1] > rest then s[|s| - 1] else rest
  }

  /** The start-timing score before weighting: 100 for the fastest recorded
      start, 0 for the slowest, linear in between; a boat with no recorded
      start is treated as the slowest. */
  function StRaw(e: RaceEntry, sts: seq<real>): real
    requires |sts| > 0
  {
    StScale(OrDefault(e.avgStartTiming, MaxOf(sts)), MinOf(sts), MaxOf(sts))
  }

  /** `(max_st - st) / range_st * 100`, where the range is 1 when all
      starts are equal. */
  function StScale(st: real, minSt: real, maxSt: real): real {
    var rangeSt := if maxSt != minSt then maxSt - minSt else 1.0;
    (maxSt - st) / rangeSt * 100.0
  }

  /** `round(score * weight, 2)`: a raw component scaled by its weight. */
  function Weighted(x: real, weight: real): real {
    Round(x * weight, 2)
  }

  /** The `avg_st` component: 0 when no boat has a recorded start. */
  function StComponent(e: RaceEntry, all: seq<RaceEntry>, w: Weights): real {
    var sts := NonZeroSts(all);
    if sts == [] then 0.0 else Weighted(StRaw(e, sts), w.avgSt)
  }

  /** The fastest start scores 100 and the slowest 0 when the starts differ;
      when they are all equal every start scores 0; in between the score
      lies between 0 and 100. */
  lemma StScaleCases(st: real, minSt: real, maxSt: real)
    requires minSt <= maxSt
    ensures st == minSt && minSt != maxSt ==> StScale(st, minSt, maxSt) == 100.0
    ensures st == maxSt ==> StScale(st, minSt, maxSt) == 0.0
    ensures minSt <= st <= maxSt ==> 0.0 <= StScale(st, minSt, maxSt) <= 100.0
  {
    if minSt <= st <= maxSt && minSt != maxSt {
      ShareOfMax(maxSt - st, maxSt - minSt);
    }
  }

  /** Start-timing component before weighting, over the race: the fastest
      recorded start scores 100 when the starts differ, the slowest 0; a
      missing or zero start scores 0; when all recorded starts are equal
      every boat scores 0; and every boat scores between 0 and 100. */
  lemma StRawCases(all: seq<RaceEntry>, i: nat)
    requires i < |all| && NonZeroSts(all) != []
    ensures var sts := NonZeroSts(all); var e := all[i];
      && (OrDefault(e.avgStartTiming, MaxOf(sts)) == MinOf(sts) && MinOf(sts) != MaxOf(sts) ==>
            StRaw(e, sts) == 100.0)
      && (OrDefault(e.avgStartTiming, MaxOf(sts)) == MaxOf(sts) ==> StRaw(e, sts) == 0.0)
      && (e.avgStartTiming.None? || e.avgStartTiming.value == 0.0 ==> StRaw(e, sts) == 0.0)
      && (MinOf(sts) == MaxOf(sts) ==> StRaw(e, sts) == 0.0)
      && 0.0 <= StRaw(e, sts) <= 100.0
  {
    var sts := NonZeroSts(all);
    var e := all[i];
    var st := OrDefault(e.avgStartTiming, MaxOf(sts));
    assert MinOf(sts) <= st <= MaxOf(sts) by {
      if e.avgStartTiming.Some? && e.avgStartTiming.value != 0.0 {
        assert st in sts;
      }
    }
    StScaleCases(st, MinOf(sts), MaxOf(sts));
  }

  /** When no boat of the race has a recorded non-zero start, the start
      component is 0 for every boat. */
  lemma {:induction false} NoStartsScoreZero(all: seq<RaceEntry>, e: RaceEntry, w: Weights)
    requires forall k | 0 <= k < |all| :: all[k].avgStartTiming.None? || all[k].avgStartTiming.value == 0.0
    ensures StComponent(e, all, w) == 0.0
  {
    NoStartsNoneRecorded(all);
  }

  lemma {:induction false} NoStartsNoneRecorded(all: seq<RaceEntry>)
    requires forall k | 0 <= k < |all| :: all[k].avgStartTiming.None? || all[k].avgStartTiming.value == 0.0
    ensures NonZeroSts(all) == []
  {
    if all != [] {
      NoStartsNoneRecorded(all[..|all| - 1]);
    }
  }

  // ---------------------------------------------------------------------------
  // Lane rate and current series

  /** `_get_course_rate_for_boat`: the historical win rate of the lane. */
  function CourseRate(boatNo: int): (r: real)
    ensures 2.0 <= r <= 55.0
    ensures boatNo == 1 ==> r == 55.0
    ensures 1 <= boatNo <= 6 && boatNo != 1 ==> r <= 14.0
    ensures !(1 <= boatNo <= 6) ==> r == 10.0
  {
    if boatNo == 1 then 55.0
    else if boatNo == 2 then 14.0
    else if boatNo == 3 then 12.0
    else if boatNo == 4 then 11.0
    else if boatNo == 5 then 6.0
    else if boatNo == 6 then 2.0
    else 10.0
  }

  /** The points a finishing place in the series string is worth. */
  function PlacePoints(c: char): (p: Option<real>)
    ensures p.Some? <==> '1' <= c <= '6'
    ensures p.Some? ==> 10.0 <= p.value <= 100.0
  {
    if c == '1' then Some(100.0)
    else if c == '2' then Some(80.0)
    else if c == '3' then Some(60.0)
    else if c == '4' then Some(40.0)
    else if c == '5' then Some(20.0)
    else if c == '6' then Some(10.0)
    else None
  }

  /** The sum of the points of the places in `s`. */
  function SeriesTotal(s: string): real {
    if s == [] then 0.0
    else
      var p := PlacePoints(s[|s| - 1]);
      SeriesTotal(s[..|s| - 1]) + (if p.Some? then p.value else 0.0)
  }

  /** How many characters of `s` are places 1 to 6. */
  function SeriesCount(s: string): nat {
    if s == [] then 0 else SeriesCount(s[..|s| - 1]) + (if PlacePoints(s[|s| - 1]).Some? then 1 else 0)
  }

  /** The current-series score: the mean of the places' points, or 50 for
      an absent or empty string or one without any place. */
  function SeriesScore(results: Option<string>): real {
    if results.None? || results.value == [] then 50.0
    else
      var n := SeriesCount(results.value);
      if n > 0 then SeriesTotal(results.value) / n as real else 50.0
  }

  /** `_calculate_current_series_score`, with its accumulating loop. */
  method CalculateCurrentSeriesScore(results: Option<string>) returns (score: real)
    ensures score == SeriesScore(results)
    ensures 10.0 <= score <= 100.0
  {
    if results.None? || results.value == [] {
      return 50.0;
    }
    var s := results.value;
    var total := 0.0;
    var count := 0;
    for i := 0 to |s|
      invariant total == SeriesTotal(s[..i])
      invariant count == SeriesCount(s[..i])
    {
      assert s[..i + 1][..i] == s[..i];
      var p := PlacePoints(s[i]);
      if p.Some? {
        total := total + p.value;
        count := count + 1;
      }
    }
    assert s[..|s|] == s;
    SeriesScoreRange(results);
    if count > 0 {
      score := total / count as real;
    } else {
      score := 50.0;
    }
  }

  lemma {:induction false} SeriesTotalBounds(s: string)
    ensures 10.0 * SeriesCount(s) as real <= SeriesTotal(s) <= 100.0 * SeriesCount(s) as real
  {
    if s != [] {
      SeriesTotalBounds(s[..|s| - 1]);
    }
  }

  /** The series score always lies between 10 and 100. */
  lemma SeriesScoreRange(results: Option<string>)
    ensures 10.0 <= SeriesScore(results) <= 100.0
  {
    if results.Some? && results.value != [] && SeriesCount(results.value) > 0 {
      var s := results.value;
      var n := SeriesCount(s) as real;
      SeriesTotalBounds(s);
      MeanBounds(SeriesTotal(s), n);
    }
  }

  lemma MeanBounds(total: real, n: real)
    requires n > 0.0 && 10.0 * n <= total <= 100.0 * n
    ensures 10.0 <= total / n <= 100.0
  {
  }

  /** The places of `s`, with every other character dropped. */
  function PlacesOnly(s: string): (r: string)
    ensures forall k | 0 <= k < |r| :: '1' <= r[k] <= '6'
  {
    if s == [] then []
    else PlacesOnly(s[..|s| - 1]) + (if PlacePoints(s[|s| - 1]).Some? then [s[|s| - 1]] else [])
  }

  lemma {:induction false} PlacesOnlySums(s: string)
    ensures SeriesTotal(PlacesOnly(s)) == SeriesTotal(s)
    ensures SeriesCount(PlacesOnly(s)) == SeriesCount(s)
  {
    if s != [] {
      var init := s[..|s| - 1];
      PlacesOnlySums(init);
      var c := s[|s| - 1];
      var x := PlacesOnly(init);
      if PlacePoints(c).Some? {
        var t := x + [c];
        assert PlacesOnly(s) == t;
        assert t[..|t| - 1] == x && t[|t| - 1] == c;
        assert SeriesTotal(t) == SeriesTotal(x) + PlacePoints(c).value;
        assert SeriesCount(t) == SeriesCount(x) + 1;
      } else {
        assert PlacesOnly(s) == x;
      }
    }
  }

  /** Characters other than the places 1 to 6 do not affect the score. */
  lemma SeriesIgnoresOtherCharacters(s: string)
    ensures SeriesScore(Some(s)) == SeriesScore(Some(PlacesOnly(s)))
  {
    PlacesOnlySums(s);
    if s == [] {
    } else if PlacesOnly(s) == [] {
      assert SeriesCount(s) == 0;
    }
  }

  // ---------------------------------------------------------------------------
  // The seven components and the ranking

  /** The `details` dict. */
  datatype ScoreDetails = ScoreDetails(
    winRateAll: real,
    winRateLocal: real,
    motorRate: real,
    boatRate: real,
    avgSt: real,
    courseRate: real,
    currentSeries: real)

  /** The seven components of one boat, each rounded to two decimals. */
  function ScoreDetailsOf(e: RaceEntry, all: seq<RaceEntry>, w: Weights): ScoreDetails
    requires |all| > 0
  {
    ScoreDetails(
      Round(RateShare(e, all, WinRateAll, w), 2),
      Round(RateShare(e, all, WinRateLocal, w), 2),
      Round(RateShare(e, all, MotorRate, w), 2),
      Round(RateShare(e, all, BoatRate, w), 2),
      StComponent(e, all, w),
      Weighted(CourseRate(e.boatNo), w.courseRate),
      Weighted(SeriesScore(e.currentSeriesResults), w.currentSeries))
  }

  /** `sum(score_details.values())`. */
  function Total(d: ScoreDetails): real {
    d.winRateAll + d.winRateLocal + d.motorRate + d.boatRate + d.avgSt + d.courseRate + d.currentSeries
  }

  /** `_calculate_score_details`: the dict is filled one key at a time. The
      maximum of an empty race is an error in the source, so the race must
      hold at least one entry. */
  method CalculateScoreDetails(e: RaceEntry, all: seq<RaceEntry>, w: Weights) returns (d: ScoreDetails)
    requires |all| > 0
    ensures d == ScoreDetailsOf(e, all, w)
  {
    var winRateAll := Round(RateShare(e, all, WinRateAll, w), 2);
    var winRateLocal := Round(RateShare(e, all, WinRateLocal, w), 2);
    var motorRate := Round(RateShare(e, all, MotorRate, w), 2);
    var boatRate := Round(RateShare(e, all, BoatRate, w), 2);
    var sts := NonZeroSts(all);
    var avgSt := 0.0;
    if sts != [] {
      var stScore := StRaw(e, sts);
      avgSt := Weighted(stScore, w.avgSt);
    }
    var courseRate := Weighted(CourseRate(e.boatNo), w.courseRate);
    var current := CalculateCurrentSeriesScore(e.currentSeriesResults);
    var currentSeries := Weighted(current, w.currentSeries);
    d := ScoreDetails(winRateAll, winRateLocal, motorRate, boatRate, avgSt, courseRate, currentSeries);
  }

  /** A boat before ranking: its number, rounded total and components. */
  datatype ScoredBoat = ScoredBoat(boatNo: int, score: real, details: ScoreDetails)

  /** `BoatScore`. */
  datatype BoatScore = BoatScore(boatNo: int, score: real, rank: nat, details: ScoreDetails)

  /** `StatisticalPrediction`. */
  datatype StatisticalPrediction = StatisticalPrediction(
    raceId: int, scores: seq<BoatScore>, recommendedRank: string, weightsUsed: Weights)

  function ScoreRow(e: RaceEntry, all: seq<RaceEntry>, w: Weights): ScoredBoat
    requires |all| > 0
  {
    var d := ScoreDetailsOf(e, all, w);
    ScoredBoat(e.boatNo, Round(Total(d), 2), d)
  }

  /** Every boat of the race, scored against the whole race, in card order. */
  function Rows(entries: seq<RaceEntry>, w: Weights): (rows: seq<ScoredBoat>)
    ensures |rows| == |entries|
    ensures forall k | 0 <= k < |entries| :: rows[k] == ScoreRow(entries[k], entries, w)
  {
    seq(|entries|, k requires 0 <= k < |entries| => ScoreRow(entries[k], entries, w))
  }

  function ByScore(b: ScoredBoat): real { b.score }

  /** The scored boats with their ranks dropped. */
  function Unranked(scores: seq<BoatScore>): (r: seq<ScoredBoat>)
    ensures |r| == |scores|
    ensures forall k | 0 <= k < |r| ::
              r[k] == ScoredBoat(scores[k].boatNo, scores[k].score, scores[k].details)
  {
    seq(|scores|, k requires 0 <= k < |scores| =>
      ScoredBoat(scores[k].boatNo, scores[k].score, scores[k].details))
  }

  function BoatNumbers(scores: seq<BoatScore>): (r: seq<int>)
    ensures |r| == |scores| && forall k | 0 <= k < |r| :: r[k] == scores[k].boatNo
  {
    seq(|scores|, k requires 0 <= k < |scores| => scores[k].boatNo)
  }

  /** The scoring loop of `predict`. */
  method ScoreAll(entries: seq<RaceEntry>, w: Weights) returns (scores: seq<ScoredBoat>)
    ensures scores == Rows(entries, w)
  {
    ghost var expected := Rows(entries, w);
    scores := [];
    for i := 0 to |entries|
      invariant scores == expected[..i]
    {
      var d := CalculateScoreDetails(entries[i], entries, w);
      var total := Total(d);
      var row := ScoredBoat(entries[i].boatNo, Round(total, 2), d);
      assert row == expected[i];
      PrefixExtend(expected, i);
      scores := scores + [row];
    }
    assert expected[..|entries|] == expected;
  }

  /** The ranking loop of `predict`: rank `k + 1` is written into the
      `k`-th boat of the sorted list. */
  method AssignRanks(sorted: seq<ScoredBoat>) returns (ranked: seq<BoatScore>)
    ensures Unranked(ranked) == sorted
    ensures forall k | 0 <= k < |ranked| :: ranked[k].rank == k + 1
  {
    ranked := seq(|sorted|, k requires 0 <= k < |sorted| =>
      BoatScore(sorted[k].boatNo, sorted[k].score, 0, sorted[k].details));
    for i := 0 to |ranked|
      invariant |ranked| == |sorted|
      invariant forall k | 0 <= k < |ranked| ::
                  ScoredBoat(ranked[k].boatNo, ranked[k].score, ranked[k].details) == sorted[k]
      invariant forall k | 0 <= k < i :: ranked[k].rank == k + 1
    {
      ranked := ranked[i := ranked[i].(rank := i + 1)];
    }
  }

  /** `StatisticalPredictor.predict`: score every boat against the whole
      race, sort by score from highest to lowest keeping equal scores in
      race-card order, number the ranks from 1, and recommend the first
      three boats. */
  method Predict(entries: seq<RaceEntry>, w: Weights) returns (p: StatisticalPrediction)
    ensures Unranked(p.scores) == SortDesc(Rows(entries, w), ByScore)
    ensures |p.scores| == |entries|
    ensures forall k | 0 <= k < |p.scores| :: p.scores[k].rank == k + 1
    ensures forall i, j | 0 <= i < j < |p.scores| :: p.scores[i].score >= p.scores[j].score
    ensures p.recommendedRank == Recommendation(BoatNumbers(p.scores))
    ensures p.raceId == (if entries == [] then 0 else entries[0].raceId)
    ensures p.weightsUsed == w
  {
    var scores := ScoreAll(entries, w);
    var sorted := SortDesc(scores, ByScore);
    var ranked := AssignRanks(sorted);
    forall i, j | 0 <= i < j < |ranked| ensures ranked[i].score >= ranked[j].score {
      assert ranked[i].score == ByScore(sorted[i]) && ranked[j].score == ByScore(sorted[j]);
    }
    var recommended := Recommendation(BoatNumbers(ranked));
    p := StatisticalPrediction(if entries == [] then 0 else entries[0].raceId, ranked, recommended, w);
  }

  /** Stability of the ranking: boats with equal scores keep the order in
      which the race card lists them. */
  lemma EqualScoresKeepCardOrder(entries: seq<RaceEntry>, w: Weights, v: real)
    ensures WithKey(SortDesc(Rows(entries, w), ByScore), ByScore, v) == WithKey(Rows(entries, w), ByScore, v)
  {
    SortDescStable(Rows(entries, w), ByScore, v);
  }
}
