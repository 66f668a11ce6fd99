/** Feature and label construction for training: one row of thirteen
    numbers per boat, and one-hot finishing labels in blocks of six boats
    per race. An entry is a dictionary whose keys may be missing or hold
    `None`; `None` here stands for both, since every field is read with a
    default that treats them alike. */
module Features {
  import opened Text
  import opened Entries

  /** One race entry as a training dictionary. */
  datatype EntryDict = EntryDict(
    boatNo: Option<int>,
    winRateAll: Option<real>,
    placeRate2All: Option<real>,
    winRateLocal: Option<real>,
    placeRate2Local: Option<real>,
    motorRate2: Option<real>,
    boatRate2: Option<real>,
    avgStartTiming: Option<real>,
    racerRank: Option<string>,
    weight: Option<real>)

  /** The column names, in the order of every feature row. */
  const FeatureNames: seq<string> := [
    "boat_no", "win_rate_all", "place_rate_2_all", "win_rate_local", "place_rate_2_local",
    "motor_rate_2", "boat_rate_2", "avg_start_timing", "rank_numeric", "weight",
    "course_advantage", "relative_win_rate", "motor_boat_combined"]

  /** `_get_course_advantage`: lane 1 is by far the strongest; a lane
      outside 1 to 6 counts like lane 5. */
  function CourseAdvantage(boatNo: int): (r: real)
    ensures 0.1 <= r <= 1.0
    ensures r == 1.0 <==> boatNo == 1
    ensures 1 <= boatNo <= 6 && boatNo != 1 ==> r <= 0.4
    ensures !(1 <= boatNo <= 6) ==> r == 0.2
  {
    if boatNo == 1 then 1.0
    else if boatNo == 2 then 0.4
    else if boatNo == 3 then 0.35
    else if boatNo == 4 then 0.3
    else if boatNo == 5 then 0.2
    else if boatNo == 6 then 0.1
    else 0.2
  }

  /** Within lanes 1 to 6 an inner lane always has the larger advantage. */
  lemma CourseAdvantageDecreasing(a: int, b: int)
    requires 1 <= a < b <= 6
    ensures CourseAdvantage(a) > CourseAdvantage(b)
  {
    if a == 1 {
    } else if a == 2 {
    } else if a == 3 {
    } else if a == 4 {
    } else {
      assert a == 5 && b == 6;
    }
  }

  /** The boat number, 1 when the key is missing. */
  function BoatNoOf(e: EntryDict): int {
    if e.boatNo.Some? then e.boatNo.value else 1
  }

  /** The class, `"B1"` when the key is missing. */
  function RankOf(e: EntryDict): Option<string> {
    if e.racerRank.Some? then e.racerRank else Some("B1")
  }

  /** `_create_single_features`: thirteen values in the order of
      `FeatureNames`, each holding what its name says, for every entry. A
      recorded boat number, rate, start timing or weight is copied. A
      missing boat number gives boat 1, and so lane advantage 1.0. A missing
      rate gives 0. A missing or zero start timing gives 0.15, and a missing
      or zero weight gives 52. The class is scored by `RankToNumeric`, a
      missing one counting as B1 (2), and the lane advantage is
      `CourseAdvantage` of the boat number.
      `relative_win_rate` is the win rate less the race average, and
      `motor_boat_combined` is the mean of the motor and boat rates, so it
      lies between them. */
  function SingleFeatures(e: EntryDict, avgWinRate: real): (f: seq<real>)
    ensures |f| == |FeatureNames|
    ensures && FeatureNames[0] == "boat_no"
            && (e.boatNo.Some? ==> f[0] == e.boatNo.value as real)
            && (e.boatNo.None? ==> f[0] == 1.0 && f[10] == 1.0)
            && FeatureNames[10] == "course_advantage" && 0.1 <= f[10] <= 1.0
            && (f[10] == 1.0 <==> f[0] == 1.0)
    ensures && FeatureNames[1] == "win_rate_all"
            && (e.winRateAll.Some? ==> f[1] == e.winRateAll.value)
            && (e.winRateAll.None? ==> f[1] == 0.0)
            && (e.placeRate2All.Some? ==> f[2] == e.placeRate2All.value)
            && (e.placeRate2All.None? ==> f[2] == 0.0)
            && (e.winRateLocal.Some? ==> f[3] == e.winRateLocal.value)
            && (e.winRateLocal.None? ==> f[3] == 0.0)
            && (e.placeRate2Local.Some? ==> f[4] == e.placeRate2Local.value)
            && (e.placeRate2Local.None? ==> f[4] == 0.0)
            && (e.motorRate2.Some? ==> f[5] == e.motorRate2.value)
            && (e.motorRate2.None? ==> f[5] == 0.0)
            && (e.boatRate2.Some? ==> f[6] == e.boatRate2.value)
            && (e.boatRate2.None? ==> f[6] == 0.0)
    ensures && FeatureNames[7] == "avg_start_timing"
            && (e.avgStartTiming.None? || e.avgStartTiming == Some(0.0) ==> f[7] == 0.15)
            && (e.avgStartTiming.Some? && e.avgStartTiming.value != 0.0 ==> f[7] == e.avgStartTiming.value)
            && FeatureNames[9] == "weight"
            && (e.weight.None? || e.weight == Some(0.0) ==> f[9] == 52.0)
            && (e.weight.Some? && e.weight.value != 0.0 ==> f[9] == e.weight.value)
            && FeatureNames[8] == "rank_numeric" && 1.0 <= f[8] <= 4.0
            && (e.racerRank.None? ==> f[8] == 2.0)
            && f[8] == RankToNumeric(RankOf(e)) as real
            && f[10] == CourseAdvantage(BoatNoOf(e))
    ensures && FeatureNames[11] == "relative_win_rate" && f[11] == f[1] - avgWinRate
            && FeatureNames[12] == "motor_boat_combined" && f[12] == (f[5] + f[6]) / 2.0
            && MinReal(f[5], f[6]) <= f[12] <= (if f[5] <= f[6] then f[6] else f[5])
  {
    var winRateAll := OrZero(e.winRateAll);
    var motor := OrZero(e.motorRate2);
    var boat := OrZero(e.boatRate2);
    [ BoatNoOf(e) as real,
      winRateAll,
      OrZero(e.placeRate2All),
      OrZero(e.winRateLocal),
      OrZero(e.placeRate2Local),
      motor,
      boat,
      OrDefault(e.avgStartTiming, 0.15),
      RankToNumeric(RankOf(e)) as real,
      OrDefault(e.weight, 52.0),
      CourseAdvantage(BoatNoOf(e)),
      winRateAll - avgWinRate,
      (motor + boat) / 2.0 ]
  }

  /** `e.get("win_rate_all", 0) or 0` for every entry. */
  function WinRates(entries: seq<EntryDict>): (r: seq<real>)
    ensures |r| == |entries| && forall k | 0 <= k < |r| :: r[k] == OrZero(entries[k].winRateAll)
  {
    seq(|entries|, k requires 0 <= k < |entries| => OrZero(entries[k].winRateAll))
  }

  /** The race's mean win rate, or 5.0 for an empty race. */
  function AverageWinRate(entries: seq<EntryDict>): real {
    var rates := WinRates(entries);
    if rates != [] then Sum(rates) / |rates| as real else 5.0
  }

  /** `create_features`: one feature row per entry, in entry order, each
      measured against the same race average. */
  method CreateFeatures(entries: seq<EntryDict>) returns (rows: seq<seq<real>>)
    ensures |rows| == |entries|
    ensures forall k | 0 <= k < |entries| :: rows[k] == SingleFeatures(entries[k], AverageWinRate(entries))
  {
    var allWinRates := WinRates(entries);
    var avgWinRate := if allWinRates != [] then Sum(allWinRates) / |allWinRates| as real else 5.0;
    rows := [];
    for i := 0 to |entries|
      invariant |rows| == i
      invariant forall k | 0 <= k < i :: rows[k] == SingleFeatures(entries[k], avgWinRate)
    {
      var feat := SingleFeatures(entries[i], avgWinRate);
      rows := rows + [feat];
    }
  }

  /** The `relative_win_rate` column of the race's feature rows. */
  function RelativeWinRates(entries: seq<EntryDict>): (c: seq<real>)
    ensures |c| == |entries|
    ensures forall k | 0 <= k < |c| :: c[k] == SingleFeatures(entries[k], AverageWinRate(entries))[11]
  {
    var avg := AverageWinRate(entries);
    seq(|entries|, k requires 0 <= k < |entries| => SingleFeatures(entries[k], avg)[11])
  }

  /** Over a non-empty race the relative win rates cancel out. */
  lemma RelativeWinRatesSumToZero(entries: seq<EntryDict>)
    requires entries != []
    ensures Sum(RelativeWinRates(entries)) == 0.0
  {
    var rates := WinRates(entries);
    var avg := AverageWinRate(entries);
    RelativeIsShifted(entries);
    SumShifted(rates, avg);
    MeanShiftCancels(Sum(rates), |rates| as real, avg);
  }

  lemma RelativeIsShifted(entries: seq<EntryDict>)
    ensures RelativeWinRates(entries) == Shifted(WinRates(entries), AverageWinRate(entries))
  {
  }

  /** Taking the mean off each of `n` terms takes the whole total off. */
  lemma MeanShiftCancels(total: real, n: real, mean: real)
    requires n > 0.0 && mean == total / n
    ensures total - n * mean == 0.0
  {
  }

  function Shifted(s: seq<real>, c: real): (r: seq<real>)
    ensures |r| == |s| && forall k | 0 <= k < |s| :: r[k] == s[k] - c
  {
    seq(|s|, k requires 0 <= k < |s| => s[k] - c)
  }

  /** Subtracting `c` from every term takes `n * c` off the sum. */
  lemma {:induction false} SumShifted(s: seq<real>, c: real)
    ensures Sum(Shifted(s, c)) == Sum(s) - |s| as real * c
  {
    if s != [] {
      var init := s[..|s| - 1];
      SumShifted(init, c);
      assert Shifted(s, c)[..|s| - 1] == Shifted(init, c);
    }
  }

  // ---------------------------------------------------------------------------
  // Labels

  /** A race result dictionary: the boats that finished first, second and
      third, each possibly missing. */
  datatype ResultDict = ResultDict(place1: Option<int>, place2: Option<int>, place3: Option<int>)

  /** `result.get("place_n", 0)`. */
  function PlaceOf(r: ResultDict, n: nat): int
    requires 1 <= n <= 3
  {
    var p := if n == 1 then r.place1 else if n == 2 then r.place2 else r.place3;
    if p.Some? then p.value else 0
  }

  /** The six flags of one race for one finishing position: boat `k + 1`
      is flagged when it took that position. */
  function OneHot(place: int): (b: seq<int>)
    ensures |b| == 6
    ensures forall k | 0 <= k < 6 :: b[k] == (if k + 1 == place then 1 else 0)
  {
    seq(6, k requires 0 <= k < 6 => if k + 1 == place then 1 else 0)
  }

  /** The label column for finishing position `n` over all races. */
  function LabelColumn(results: seq<ResultDict>, n: nat): (l: seq<int>)
    requires 1 <= n <= 3
    ensures |l| == 6 * |results|
  {
    if results == [] then []
    else LabelColumn(results[..|results| - 1], n) + OneHot(PlaceOf(results[|results| - 1], n))
  }

  /** `create_labels`: for each race and each boat 1 to 6 in turn, one flag
      per finishing position is appended to each of the three columns. */
  method CreateLabels(results: seq<ResultDict>) returns (labels1st: seq<int>, labels2nd: seq<int>, labels3rd: seq<int>)
    ensures labels1st == LabelColumn(results, 1)
    ensures labels2nd == LabelColumn(results, 2)
    ensures labels3rd == LabelColumn(results, 3)
  {
    labels1st, labels2nd, labels3rd := [], [], [];
    for r := 0 to |results|
      invariant labels1st == LabelColumn(results[..r], 1)
      invariant labels2nd == LabelColumn(results[..r], 2)
      invariant labels3rd == LabelColumn(results[..r], 3)
    {
      var place1 := PlaceOf(results[r], 1);
      var place2 := PlaceOf(results[r], 2);
      var place3 := PlaceOf(results[r], 3);
      var before1, before2, before3 := labels1st, labels2nd, labels3rd;
      for boatNo := 1 to 7
        invariant labels1st == before1 + OneHot(place1)[..boatNo - 1]
        invariant labels2nd == before2 + OneHot(place2)[..boatNo - 1]
        invariant labels3rd == before3 + OneHot(place3)[..boatNo - 1]
      {
        labels1st := labels1st + [if boatNo == place1 then 1 else 0];
        labels2nd := labels2nd + [if boatNo == place2 then 1 else 0];
        labels3rd := labels3rd + [if boatNo == place3 then 1 else 0];
        AppendFlag(before1, place1, boatNo);
        AppendFlag(before2, place2, boatNo);
        AppendFlag(before3, place3, boatNo);
      }
      LabelColumnStep(results, r, 1);
      LabelColumnStep(results, r, 2);
      LabelColumnStep(results, r, 3);
    }
    assert results[..|results|] == results;
  }

  /** Appending boat `boatNo`'s flag extends the race's block by one. */
  lemma AppendFlag(before: seq<int>, place: int, boatNo: int)
    requires 1 <= boatNo <= 6
    ensures before + OneHot(place)[..boatNo - 1] + [if boatNo == place then 1 else 0]
         == before + OneHot(place)[..boatNo]
    ensures boatNo == 6 ==> OneHot(place)[..boatNo] == OneHot(place)
  {
    assert OneHot(place)[..boatNo] == OneHot(place)[..boatNo - 1] + [if boatNo == place then 1 else 0];
  }

  lemma LabelColumnStep(results: seq<ResultDict>, r: nat, n: nat)
    requires r < |results| && 1 <= n <= 3
    ensures LabelColumn(results[..r + 1], n) == LabelColumn(results[..r], n) + OneHot(PlaceOf(results[r], n))
  {
    assert results[..r + 1][..r] == results[..r];
  }

  /** The block of race `i` in a label column is that race's one-hot flags. */
  lemma {:induction false} LabelBlock(results: seq<ResultDict>, n: nat, i: nat)
    requires 1 <= n <= 3 && i < |results|
    ensures LabelColumn(results, n)[6 * i..6 * i + 6] == OneHot(PlaceOf(results[i], n))
  {
    var init := results[..|results| - 1];
    if i < |results| - 1 {
      LabelBlock(init, n, i);
      assert init[i] == results[i];
      assert LabelColumn(results, n)[6 * i..6 * i + 6] == LabelColumn(init, n)[6 * i..6 * i + 6];
    } else {
      assert LabelColumn(results, n)[6 * i..6 * i + 6] == OneHot(PlaceOf(results[i], n));
    }
  }

  /** How many flags of a block are set. */
  function Ones(b: seq<int>): nat {
    if b == [] then 0 else Ones(b[..|b| - 1]) + (if b[|b| - 1] == 1 then 1 else 0)
  }

  /** A block holds exactly one set flag when the place is a boat 1 to 6,
      and none otherwise (a missing place counts as 0). */
  lemma OneHotCount(place: int)
    ensures Ones(OneHot(place)) == (if 1 <= place <= 6 then 1 else 0)
  {
    OnesPrefix(place, 6);
    assert OneHot(place)[..6] == OneHot(place);
  }

  /** The first `m` flags hold one set flag exactly when the place is among
      the first `m` boats. */
  lemma {:induction false} OnesPrefix(place: int, m: nat)
    requires m <= 6
    ensures Ones(OneHot(place)[..m]) == (if 1 <= place <= m then 1 else 0)
  {
    var b := OneHot(place);
    if m == 0 {
      assert b[..0] == [];
    } else {
      OnesPrefix(place, m - 1);
      assert b[..m][..m - 1] == b[..m - 1];
    }
  }
}
