/** The machine-learning predictor's post-processing and its statistical
    fallback: per-boat finishing probabilities, sorted by the chance of
    winning, the top-three recommendation and a confidence figure. The
    trained model itself is an input: its `predict_proba` rows, or `None`
    when no model is loaded. */
module MlModel {
  import opened Text
  import opened Sorting
  import opened Entries

  /** `BoatProbability`. */
  datatype BoatProbability = BoatProbability(
    boatNo: int,
    prob1st: real,
    prob2nd: real,
    prob3rd: real,
    expectedRank: real)

  /** `MLPrediction`. */
  datatype MlPrediction = MlPrediction(
    raceId: int,
    probabilities: seq<BoatProbability>,
    predictedRank: string,
    modelConfidence: real)

  // ---------------------------------------------------------------------------
  // Lookup tables

  /** `_get_course_bonus`: the inner lanes get the larger bonus; a lane
      outside 1 to 6 gets 5. */
  function CourseBonus(boatNo: int): (r: real)
    ensures 2.0 <= r <= 30.0
    ensures boatNo == 1 ==> r == 30.0
    ensures 1 <= boatNo <= 6 && boatNo != 1 ==> r <= 10.0
    ensures !(1 <= boatNo <= 6) ==> r == 5.0
  {
    if boatNo == 1 then 30.0
    else if boatNo == 2 then 10.0
    else if boatNo == 3 then 8.0
    else if boatNo == 4 then 6.0
    else if boatNo == 5 then 4.0
    else if boatNo == 6 then 2.0
    else 5.0
  }

  /** Within lanes 1 to 6 an inner lane always earns more than an outer one. */
  lemma CourseBonusDecreasing(a: int, b: int)
    requires 1 <= a < b <= 6
    ensures CourseBonus(a) > CourseBonus(b)
  {
    if a == 1 {
    } else if a == 2 {
    } else if a == 3 {
    } else if a == 4 {
    } else {
      assert a == 5 && b == 6;
    }
  }

  // ---------------------------------------------------------------------------
  // The expected finishing position

  /** `sum(probs * [1, 2, ..., n])`. */
  function ExpectedRank(probs: seq<real>): real {
    if probs == [] then 0.0
    else ExpectedRank(probs[..|probs| - 1]) + (|probs| as real) * probs[|probs| - 1]
  }

  /** With non-negative weights, the weighted position sum lies between
      the total mass and `n` times it. */
  lemma {:induction false} ExpectedRankBetween(probs: seq<real>)
    requires NonNegative(probs)
    ensures Sum(probs) <= ExpectedRank(probs) <= (|probs| as real) * Sum(probs)
  {
    if probs != [] {
      var init := probs[..|probs| - 1];
      var last := probs[|probs| - 1];
      var n := |probs| as real;
      ExpectedRankBetween(init);
      SumNonNegative(init);
      assert n * last >= last;
      assert (n - 1.0) * Sum(init) <= n * Sum(init);
      assert n * Sum(probs) == n * Sum(init) + n * last;
    }
  }

  /** For a probability distribution over the `n` finishing positions,
      the expected position lies between 1 and `n`. */
  lemma ExpectedRankOfDistribution(probs: seq<real>)
    requires NonNegative(probs) && Sum(probs) == 1.0
    ensures 1.0 <= ExpectedRank(probs) <= |probs| as real
  {
    ExpectedRankBetween(probs);
  }

  // ---------------------------------------------------------------------------
  // The fallback when no model is loaded

  /** The fallback's strength figure for one boat. */
  function SimpleScore(e: RaceEntry): real {
    OrZero(e.winRateAll) * 2.0 + OrZero(e.winRateLocal) * 1.5 + OrZero(e.motorRate2)
      + OrZero(e.boatRate2) * 0.5 + CourseBonus(e.boatNo)
  }

  function Scores(entries: seq<RaceEntry>): (s: seq<real>)
    ensures |s| == |entries| && forall k | 0 <= k < |s| :: s[k] == SimpleScore(entries[k])
  {
    seq(|entries|, k requires 0 <= k < |entries| => SimpleScore(entries[k]))
  }

  /** `sum(...) or 1`: a zero total is replaced by one. */
  function TotalOrOne(t: real): (r: real)
    ensures r != 0.0 && (t != 0.0 ==> r == t)
  {
    if t == 0.0 then 1.0 else t
  }

  /** One boat's fallback probabilities, where `share` is its score over
      the total: the second and third place chances are fixed fractions of
      the winning chance, and the expected position is linear in it. */
  function FallbackRow(boatNo: int, share: real): BoatProbability {
    BoatProbability(boatNo, Round(share, 4), Round(share * 0.8, 4), Round(share * 0.7, 4),
      Round(7.0 - 6.0 * share, 2))
  }

  /** The fallback rows of the whole race. */
  function FallbackRows(entries: seq<RaceEntry>): (r: seq<BoatProbability>)
    ensures |r| == |entries|
    ensures forall k | 0 <= k < |r| ::
              r[k] == FallbackRow(entries[k].boatNo, SimpleScore(entries[k]) / TotalOrOne(Sum(Scores(entries))))
  {
    var t := TotalOrOne(Sum(Scores(entries)));
    seq(|entries|, k requires 0 <= k < |entries| => FallbackRow(entries[k].boatNo, SimpleScore(entries[k]) / t))
  }

  /** `_simple_prediction`: one loop scores the boats, a second turns each
      score into its share of the total. */
  method SimplePrediction(entries: seq<RaceEntry>) returns (probs: seq<BoatProbability>)
    ensures probs == FallbackRows(entries)
  {
    var scores: seq<real> := [];
    for i := 0 to |entries|
      invariant scores == Scores(entries[..i])
    {
      var score := OrZero(entries[i].winRateAll) * 2.0 + OrZero(entries[i].winRateLocal) * 1.5
        + OrZero(entries[i].motorRate2) + OrZero(entries[i].boatRate2) * 0.5 + CourseBonus(entries[i].boatNo);
      scores := scores + [score];
    }
    assert entries[..|entries|] == entries;
    var totalScore := TotalOrOne(Sum(scores));
    probs := [];
    for i := 0 to |entries|
      invariant |probs| == i
      invariant forall k | 0 <= k < i :: probs[k] == FallbackRow(entries[k].boatNo, scores[k] / totalScore)
    {
      var prob1st := scores[i] / totalScore;
      probs := probs + [FallbackRow(entries[i].boatNo, prob1st)];
    }
  }

  /** A boat's recorded rates are all absent or non-negative. */
  predicate RatesNonNegative(e: RaceEntry) {
    OrZero(e.winRateAll) >= 0.0 && OrZero(e.winRateLocal) >= 0.0
    && OrZero(e.motorRate2) >= 0.0 && OrZero(e.boatRate2) >= 0.0
  }

  /** With non-negative rates every boat's fallback score is positive,
      since the lane bonus is at least 2. */
  lemma SimpleScorePositive(e: RaceEntry)
    requires RatesNonNegative(e)
    ensures SimpleScore(e) >= 2.0
  {
  }

  /** Each term of a non-negative sum is at most the sum. */
  lemma {:induction false} TermAtMostSum(s: seq<real>, k: nat)
    requires NonNegative(s) && k < |s|
    ensures s[k] <= Sum(s)
  {
    var init := s[..|s| - 1];
    SumNonNegative(init);
    if k < |s| - 1 {
      TermAtMostSum(init, k);
    }
  }

  /** Dividing every term by `t` divides the sum by `t`. */
  lemma {:induction false} SumOfShares(s: seq<real>, t: real)
    requires t != 0.0
    ensures Sum(Shares(s, t)) == Sum(s) / t
  {
    if s != [] {
      var init := s[..|s| - 1];
      SumOfShares(init, t);
      assert Shares(s, t)[..|s| - 1] == Shares(init, t);
      DivisionDistributes(Sum(init), s[|s| - 1], t);
    }
  }

  lemma DivisionDistributes(a: real, b: real, t: real)
    requires t != 0.0
    ensures (a + b) / t == a / t + b / t
  {
  }

  function Shares(s: seq<real>, t: real): (r: seq<real>)
    requires t != 0.0
    ensures |r| == |s| && forall k | 0 <= k < |s| :: r[k] == s[k] / t
  {
    seq(|s|, k requires 0 <= k < |s| => s[k] / t)
  }

  /** The scores of a race whose rates are non-negative are positive, so
      their total is positive and is not replaced by one. */
  lemma {:induction false} ScoresPositive(entries: seq<RaceEntry>)
    requires forall k | 0 <= k < |entries| :: RatesNonNegative(entries[k])
    ensures NonNegative(Scores(entries))
    ensures entries != [] ==> TotalOrOne(Sum(Scores(entries))) == Sum(Scores(entries)) > 0.0
  {
    var s := Scores(entries);
    forall k | 0 <= k < |s| ensures s[k] >= 0.0 {
      SimpleScorePositive(entries[k]);
    }
    if entries != [] {
      TermAtMostSum(s, 0);
      SimpleScorePositive(entries[0]);
    }
  }

  /** With non-negative rates, every boat's winning chance in the fallback
      lies in [0, 1] before rounding. */
  lemma FallbackShareInUnit(entries: seq<RaceEntry>, k: nat)
    requires forall k | 0 <= k < |entries| :: RatesNonNegative(entries[k])
    requires k < |entries|
    ensures 0.0 <= Scores(entries)[k] / TotalOrOne(Sum(Scores(entries))) <= 1.0
  {
    var s := Scores(entries);
    ScoresPositive(entries);
    TermAtMostSum(s, k);
    UnitShare(s[k], Sum(s));
  }

  /** With non-negative rates, the winning chances of a non-empty race sum
      to exactly 1 before rounding. */
  lemma FallbackSharesSumToOne(entries: seq<RaceEntry>)
    requires forall k | 0 <= k < |entries| :: RatesNonNegative(entries[k])
    requires entries != []
    ensures Sum(Shares(Scores(entries), TotalOrOne(Sum(Scores(entries))))) == 1.0
  {
    var s := Scores(entries);
    ScoresPositive(entries);
    var t := Sum(s);
    assert TotalOrOne(t) == t > 0.0;
    SumOfShares(s, t);
    assert t / t == 1.0;
  }

  lemma UnitShare(x: real, t: real)
    requires 0.0 <= x <= t && t > 0.0
    ensures 0.0 <= x / t <= 1.0
  {
  }

  /** With non-negative rates, every rounded value of a fallback row is
      in range: the three chances in [0, 1] and the expected position in
      [1, 7]. */
  lemma FallbackRowBounds(entries: seq<RaceEntry>, k: nat)
    requires forall k | 0 <= k < |entries| :: RatesNonNegative(entries[k])
    requires k < |entries|
    ensures var row := FallbackRows(entries)[k];
      && 0.0 <= row.prob1st <= 1.0
      && 0.0 <= row.prob2nd <= 1.0
      && 0.0 <= row.prob3rd <= 1.0
      && 1.0 <= row.expectedRank <= 7.0
  {
    var share := Scores(entries)[k] / TotalOrOne(Sum(Scores(entries)));
    FallbackShareInUnit(entries, k);
    RoundedRowBounds(entries[k].boatNo, share);
  }

  /** The rounded values of a row whose winning chance lies in [0, 1]. */
  lemma RoundedRowBounds(boatNo: int, share: real)
    requires 0.0 <= share <= 1.0
    ensures var row := FallbackRow(boatNo, share);
      && 0.0 <= row.prob1st <= 1.0
      && 0.0 <= row.prob2nd <= 1.0
      && 0.0 <= row.prob3rd <= 1.0
      && 1.0 <= row.expectedRank <= 7.0
  {
    RoundZero(4);
    RoundOne(4);
    RoundMonotone(0.0, share, 4);
    RoundMonotone(share, 1.0, 4);
    RoundMonotone(0.0, share * 0.8, 4);
    RoundMonotone(share * 0.8, 1.0, 4);
    RoundMonotone(0.0, share * 0.7, 4);
    RoundMonotone(share * 0.7, 1.0, 4);
    var rank := 7.0 - 6.0 * share;
    RoundOne(2);
    RoundSeven();
    RoundMonotone(1.0, rank, 2);
    RoundMonotone(rank, 7.0, 2);
  }

  lemma RoundSeven()
    ensures Round(7.0, 2) == 7.0
  {
    assert Pow10(2) == 100;
    RoundExact(700, 2);
    assert 700 as real / 100 as real == 7.0;
  }

  // ---------------------------------------------------------------------------
  // Confidence and the prediction

  function Prob1st(p: BoatProbability): real { p.prob1st }

  function Identity(x: real): real { x }

  function WinChances(ps: seq<BoatProbability>): (r: seq<real>)
    ensures |r| == |ps| && forall k | 0 <= k < |r| :: r[k] == ps[k].prob1st
  {
    seq(|ps|, k requires 0 <= k < |ps| => ps[k].prob1st)
  }

  /** `_calculate_confidence`: twice the lead of the favourite over the
      runner-up (or twice the favourite's chance when it runs alone),
      capped at 1 and rounded to four places; 0 for an empty race. */
  function Confidence(ps: seq<BoatProbability>): (r: real)
    ensures ps == [] ==> r == 0.0
    ensures r <= 1.0
    ensures |ps| >= 2 ==> r >= 0.0
    ensures |ps| == 1 && ps[0].prob1st >= 0.0 ==> r >= 0.0
    ensures |ps| == 1 ==> r == Round(MinReal(ps[0].prob1st * 2.0, 1.0), 4)
  {
    if ps == [] then 0.0
    else
      var sorted := SortDesc(WinChances(ps), Identity);
      var c := if |sorted| >= 2 then sorted[0] - sorted[1] else sorted[0];
      var capped := MinReal(c * 2.0, 1.0);
      CappedRoundBounds(c);
      SortedSingle(ps, sorted);
      Round(capped, 4)
  }

  lemma CappedRoundBounds(c: real)
    ensures Round(MinReal(c * 2.0, 1.0), 4) <= 1.0
    ensures c >= 0.0 ==> Round(MinReal(c * 2.0, 1.0), 4) >= 0.0
  {
    RoundMonotone(MinReal(c * 2.0, 1.0), 1.0, 4);
    RoundOne(4);
    if c >= 0.0 {
      RoundMonotone(0.0, MinReal(c * 2.0, 1.0), 4);
      RoundZero(4);
    }
  }

  lemma SortedSingle(ps: seq<BoatProbability>, sorted: seq<real>)
    requires |ps| == |sorted| && multiset(sorted) == multiset(WinChances(ps))
    ensures |ps| == 1 ==> sorted[0] == ps[0].prob1st
  {
    if |ps| == 1 {
      assert WinChances(ps) == [ps[0].prob1st];
      assert sorted[0] in multiset(sorted);
    }
  }

  /** The confidence depends only on the top two winning chances: it is
      twice the gap between the largest and the second-largest, capped at
      1 and rounded. */
  lemma ConfidenceOfTopTwo(ps: seq<BoatProbability>, i: nat, j: nat)
    requires i < |ps| && j < |ps| && i != j
    requires forall k | 0 <= k < |ps| :: ps[k].prob1st <= ps[i].prob1st
    requires forall k | 0 <= k < |ps| && k != i :: ps[k].prob1st <= ps[j].prob1st
    ensures Confidence(ps) == Round(MinReal((ps[i].prob1st - ps[j].prob1st) * 2.0, 1.0), 4)
  {
    ChancesOrdered(ps, i, j);
    ConfidenceFromChances(ps, i, j);
  }

  lemma ConfidenceFromChances(ps: seq<BoatProbability>, i: nat, j: nat)
    requires i < |ps| && j < |ps| && i != j
    requires var w := WinChances(ps);
      && (forall k | 0 <= k < |w| :: w[k] <= w[i])
      && (forall k | 0 <= k < |w| && k != i :: w[k] <= w[j])
    ensures var w := WinChances(ps);
      Confidence(ps) == Round(MinReal((w[i] - w[j]) * 2.0, 1.0), 4)
  {
    var w := WinChances(ps);
    TopOfSorted(w, SortDesc(w, Identity), i, j);
  }

  lemma ChancesOrdered(ps: seq<BoatProbability>, i: nat, j: nat)
    requires i < |ps| && j < |ps|
    requires forall k | 0 <= k < |ps| :: ps[k].prob1st <= ps[i].prob1st
    requires forall k | 0 <= k < |ps| && k != i :: ps[k].prob1st <= ps[j].prob1st
    ensures var w := WinChances(ps);
      && (forall k | 0 <= k < |w| :: w[k] <= w[i])
      && (forall k | 0 <= k < |w| && k != i :: w[k] <= w[j])
      && w[i] == ps[i].prob1st && w[j] == ps[j].prob1st
  {
  }

  /** In a descending arrangement of the same values, the first two are the
      largest value and the largest value left after taking it out once. */
  lemma TopOfSorted(w: seq<real>, sorted: seq<real>, i: nat, j: nat)
    requires i < |w| && j < |w| && i != j && |sorted| == |w|
    requires multiset(sorted) == multiset(w)
    requires NonIncreasing(sorted, Identity)
    requires forall k | 0 <= k < |w| :: w[k] <= w[i]
    requires forall k | 0 <= k < |w| && k != i :: w[k] <= w[j]
    ensures sorted[0] == w[i] && sorted[1] == w[j]
  {
    LargestComesFirst(w, sorted, i);
    RunnerUpComesSecond(w, sorted, i, j);
  }

  lemma LargestComesFirst(w: seq<real>, sorted: seq<real>, i: nat)
    requires i < |w| && |sorted| == |w|
    requires multiset(sorted) == multiset(w)
    requires NonIncreasing(sorted, Identity)
    requires forall k | 0 <= k < |w| :: w[k] <= w[i]
    ensures sorted[0] == w[i]
  {
    AtMostPermutation(sorted, w, w[i]);
    assert w[i] in multiset(w);
    LargestFirst(sorted, w[i]);
  }

  lemma RunnerUpComesSecond(w: seq<real>, sorted: seq<real>, i: nat, j: nat)
    requires i < |w| && j < |w| && i != j && |sorted| == |w|
    requires multiset(sorted) == multiset(w)
    requires NonIncreasing(sorted, Identity)
    requires forall k | 0 <= k < |w| && k != i :: w[k] <= w[j]
    requires sorted[0] == w[i]
    ensures sorted[1] == w[j]
  {
    var rest := Without(w, i);
    var tail := sorted[1..];
    WithoutBelow(w, i, j);
    TailIsWithout(w, sorted, i);
    AtMostPermutation(tail, rest, w[j]);
    assert w[j] in multiset(tail) by {
      assert w[j] == rest[if j < i then j else j - 1];
    }
    NonIncreasingTail(sorted);
    LargestFirst(tail, w[j]);
  }

  /** Taking out the largest value leaves the runner-up as an upper bound. */
  lemma WithoutBelow(w: seq<real>, i: nat, j: nat)
    requires i < |w| && j < |w| && i != j
    requires forall k | 0 <= k < |w| && k != i :: w[k] <= w[j]
    ensures forall m | 0 <= m < |w| - 1 :: Without(w, i)[m] <= w[j]
  {
    var rest := Without(w, i);
    forall m | 0 <= m < |rest| ensures rest[m] <= w[j] {
      assert rest[m] == w[if m < i then m else m + 1];
    }
  }

  /** Once the largest value heads a rearrangement, the rest of it is a
      rearrangement of the values without that one. */
  lemma TailIsWithout(w: seq<real>, sorted: seq<real>, i: nat)
    requires i < |w| && |sorted| == |w|
    requires multiset(sorted) == multiset(w)
    requires sorted[0] == w[i]
    ensures multiset(sorted[1..]) == multiset(Without(w, i))
  {
    WithoutMultiset(w, i);
    TailMultiset(sorted);
  }

  lemma NonIncreasingTail(s: seq<real>)
    requires s != [] && NonIncreasing(s, Identity)
    ensures NonIncreasing(s[1..], Identity)
  {
    forall a, b | 0 <= a < b < |s[1..]| ensures Identity(s[1..][a]) >= Identity(s[1..][b]) {
      assert s[1..][a] == s[a + 1] && s[1..][b] == s[b + 1];
    }
  }

  /** `w` with the element at index `i` taken out. */
  function Without(w: seq<real>, i: nat): (r: seq<real>)
    requires i < |w|
    ensures |r| == |w| - 1
    ensures forall m | 0 <= m < |r| :: r[m] == w[if m < i then m else m + 1]
  {
    w[..i] + w[i + 1..]
  }

  lemma WithoutMultiset(w: seq<real>, i: nat)
    requires i < |w|
    ensures multiset(Without(w, i)) == multiset(w) - multiset{w[i]}
  {
    assert w == w[..i] + [w[i]] + w[i + 1..];
    assert Without(w, i) == w[..i] + w[i + 1..];
  }

  lemma TailMultiset(s: seq<real>)
    requires s != []
    ensures multiset(s[1..]) == multiset(s) - multiset{s[0]}
  {
    assert s == [s[0]] + s[1..];
  }

  /** Rearranging values keeps them all below a bound. */
  lemma AtMostPermutation(a: seq<real>, b: seq<real>, v: real)
    requires multiset(a) == multiset(b)
    requires forall m | 0 <= m < |b| :: b[m] <= v
    ensures forall m | 0 <= m < |a| :: a[m] <= v
  {
    forall m | 0 <= m < |a| ensures a[m] <= v {
      assert a[m] in multiset(b);
    }
  }

  /** A descending sequence that holds its own upper bound starts with it. */
  lemma LargestFirst(s: seq<real>, v: real)
    requires NonIncreasing(s, Identity)
    requires forall m | 0 <= m < |s| :: s[m] <= v
    requires v in multiset(s)
    ensures s[0] == v
  {
    var a :| 0 <= a < |s| && s[a] == v;
    if a > 0 {
      assert Identity(s[0]) >= Identity(s[a]);
    }
  }

  /** One model row: the first three class probabilities and the expected
      position over all of them. */
  function ModelRow(e: RaceEntry, row: seq<real>): BoatProbability
    requires |row| >= 3
  {
    BoatProbability(e.boatNo, row[0], row[1], row[2], ExpectedRank(row))
  }

  function ModelRows(entries: seq<RaceEntry>, rows: seq<seq<real>>): (r: seq<BoatProbability>)
    requires |rows| == |entries| && forall k | 0 <= k < |rows| :: |rows[k]| >= 3
    ensures |r| == |entries| && forall k | 0 <= k < |r| :: r[k] == ModelRow(entries[k], rows[k])
  {
    seq(|entries|, k requires 0 <= k < |entries| => ModelRow(entries[k], rows[k]))
  }

  /** The loop of the model branch of `predict`. */
  method ModelProbabilities(entries: seq<RaceEntry>, rows: seq<seq<real>>) returns (probs: seq<BoatProbability>)
    requires |rows| == |entries| && forall k | 0 <= k < |rows| :: |rows[k]| >= 3
    ensures probs == ModelRows(entries, rows)
  {
    probs := [];
    for i := 0 to |entries|
      invariant |probs| == i
      invariant forall k | 0 <= k < i :: probs[k] == ModelRow(entries[k], rows[k])
    {
      var expected := ExpectedRank(rows[i]);
      probs := probs + [BoatProbability(entries[i].boatNo, rows[i][0], rows[i][1], rows[i][2], expected)];
    }
  }

  function BoatNumbers(ps: seq<BoatProbability>): (r: seq<int>)
    ensures |r| == |ps| && forall k | 0 <= k < |r| :: r[k] == ps[k].boatNo
  {
    seq(|ps|, k requires 0 <= k < |ps| => ps[k].boatNo)
  }

  /** The rows a loaded model supplies: one per boat, each with at least
      the first three finishing positions. */
  predicate WellShaped(entries: seq<RaceEntry>, output: Option<seq<seq<real>>>) {
    output.Some? ==> |output.value| == |entries| && forall k | 0 <= k < |output.value| :: |output.value[k]| >= 3
  }

  /** `MLPredictor.predict`: the per-boat probabilities, from the model when
      one is loaded and from the fallback otherwise, sorted by winning
      chance from highest to lowest with ties kept in race-card order; the
      recommendation is the first three boats, and the race id is 0 for an
      empty card. */
  method Predict(entries: seq<RaceEntry>, output: Option<seq<seq<real>>>) returns (p: MlPrediction)
    requires WellShaped(entries, output)
    ensures |p.probabilities| == |entries|
    ensures forall i, j | 0 <= i < j < |p.probabilities| ::
              p.probabilities[i].prob1st >= p.probabilities[j].prob1st
    ensures output.Some? ==> p.probabilities == SortDesc(ModelRows(entries, output.value), Prob1st)
    ensures output.None? ==> p.probabilities == SortDesc(FallbackRows(entries), Prob1st)
    ensures p.predictedRank == Recommendation(BoatNumbers(p.probabilities))
    ensures p.modelConfidence == Confidence(p.probabilities)
    ensures p.raceId == (if entries == [] then 0 else entries[0].raceId)
  {
    var probabilities;
    if output.Some? {
      probabilities := ModelProbabilities(entries, output.value);
    } else {
      probabilities := SimplePrediction(entries);
    }
    var sorted := SortDesc(probabilities, Prob1st);
    forall i, j | 0 <= i < j < |sorted| ensures sorted[i].prob1st >= sorted[j].prob1st {
      assert Prob1st(sorted[i]) >= Prob1st(sorted[j]);
    }
    var predictedRank := Recommendation(BoatNumbers(sorted));
    var confidence := Confidence(sorted);
    p := MlPrediction(if entries == [] then 0 else entries[0].raceId, sorted, predictedRank, confidence);
  }
}
