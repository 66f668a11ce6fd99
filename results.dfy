/** The betting statistics endpoint: hit rate, money staked and returned,
    profit and return on investment over the recorded predictions,
    optionally limited to races within a date window. Dates are day
    numbers; the database query is a filter over a sequence. */
module Results {
  import opened Text

  /** A recorded prediction with the date of its race (`None` when the
      prediction has no race or the race has no date), the amounts staked
      and paid out, and whether it hit. */
  datatype Prediction = Prediction(
    raceDate: Option<int>,
    betAmount: Option<int>,
    returnAmount: Option<int>,
    isHit: Option<bool>)

  /** The response of `get_statistics`. */
  datatype Statistics = Statistics(
    totalPredictions: nat,
    hits: nat,
    hitRate: real,
    totalBet: int,
    totalReturn: int,
    profit: int,
    roi: real)

  /** Whether a prediction survives the optional date bounds. With neither
      bound there is no join and every prediction is kept; with either
      bound the join with the race drops predictions without a dated race,
      and both bounds are inclusive. */
  predicate InWindow(p: Prediction, startDate: Option<int>, endDate: Option<int>) {
    (startDate.None? && endDate.None?)
    || (p.raceDate.Some?
        && (startDate.None? || p.raceDate.value >= startDate.value)
        && (endDate.None? || p.raceDate.value <= endDate.value))
  }

  /** The query: the predictions inside the window, in their stored order. */
  function Window(ps: seq<Prediction>, startDate: Option<int>, endDate: Option<int>): (r: seq<Prediction>)
    ensures |r| <= |ps|
    ensures forall k | 0 <= k < |r| :: InWindow(r[k], startDate, endDate)
    ensures forall k | 0 <= k < |ps| :: InWindow(ps[k], startDate, endDate) ==> ps[k] in r
    ensures forall k | 0 <= k < |r| :: r[k] in ps
  {
    if ps == [] then []
    else
      var init := Window(ps[..|ps| - 1], startDate, endDate);
      var last := ps[|ps| - 1];
      assert forall k | 0 <= k < |ps| - 1 :: ps[k] == ps[..|ps| - 1][k];
      init + (if InWindow(last, startDate, endDate) then [last] else [])
  }

  /** The query keeps each prediction in the window as often as it is
      stored, and no other. */
  lemma {:induction false} WindowCounts(ps: seq<Prediction>, startDate: Option<int>, endDate: Option<int>)
    ensures forall x ::
              multiset(Window(ps, startDate, endDate))[x] ==
              (if InWindow(x, startDate, endDate) then multiset(ps)[x] else 0)
  {
    if ps != [] {
      var init, last := ps[..|ps| - 1], ps[|ps| - 1];
      WindowCounts(init, startDate, endDate);
      SnocSplit(ps);
      assert Window(ps, startDate, endDate) ==
        Window(init, startDate, endDate) + (if InWindow(last, startDate, endDate) then [last] else []);
    }
  }

  /** The query keeps the stored order: filtering two batches one after the
      other is filtering each and joining the results. */
  lemma {:induction false} WindowAppend(a: seq<Prediction>, b: seq<Prediction>, startDate: Option<int>, endDate: Option<int>)
    ensures Window(a + b, startDate, endDate) == Window(a, startDate, endDate) + Window(b, startDate, endDate)
  {
    if b == [] {
      assert a + b == a;
    } else {
      var b' := b[..|b| - 1];
      var last := b[|b| - 1];
      var kept := if InWindow(last, startDate, endDate) then [last] else [];
      WindowAppend(a, b', startDate, endDate);
      assert (a + b)[..|a + b| - 1] == a + b';
      assert (a + b)[|a + b| - 1] == last;
      ConcatAssociative(Window(a, startDate, endDate), Window(b', startDate, endDate), kept);
    }
  }

  /** A single prediction is kept exactly when it lies in the window. */
  lemma WindowSingle(p: Prediction, startDate: Option<int>, endDate: Option<int>)
    ensures Window([p], startDate, endDate) == if InWindow(p, startDate, endDate) then [p] else []
  {
    assert [p][..0] == [];
  }

  /** Without bounds the query returns every prediction. */
  lemma {:induction false} NoBoundsKeepsAll(ps: seq<Prediction>)
    ensures Window(ps, None, None) == ps
  {
    if ps != [] {
      NoBoundsKeepsAll(ps[..|ps| - 1]);
      assert ps[..|ps| - 1] + [ps[|ps| - 1]] == ps;
    }
  }

  /** The number of predictions that hit; an unknown outcome is not a hit. */
  function Hits(ps: seq<Prediction>): (n: nat)
    ensures n <= |ps|
  {
    if ps == [] then 0
    else Hits(ps[..|ps| - 1]) + (if ps[|ps| - 1].isHit == Some(true) then 1 else 0)
  }

  /** `amount or 0`. */
  function AmountOrZero(a: Option<int>): int {
    if a.Some? then a.value else 0
  }

  function TotalBet(ps: seq<Prediction>): int {
    if ps == [] then 0 else TotalBet(ps[..|ps| - 1]) + AmountOrZero(ps[|ps| - 1].betAmount)
  }

  function TotalReturn(ps: seq<Prediction>): int {
    if ps == [] then 0 else TotalReturn(ps[..|ps| - 1]) + AmountOrZero(ps[|ps| - 1].returnAmount)
  }

  /** `hits / total if total > 0 else 0`. */
  function HitRate(hits: nat, total: nat): (r: real)
    requires hits <= total
    ensures 0.0 <= r <= 1.0
    ensures total == 0 ==> r == 0.0
    ensures total > 0 && hits == total ==> r == 1.0
    ensures hits == 0 ==> r == 0.0
  {
    if total > 0 then
      HitRateBounds(hits, total);
      hits as real / total as real
    else 0.0
  }

  lemma HitRateBounds(hits: nat, total: nat)
    requires hits <= total && total > 0
    ensures 0.0 <= hits as real / total as real <= 1.0
  {
  }

  /** `(total_return / total_bet - 1) * 100 if total_bet > 0 else 0`: the
      percentage gained on the stake, 0 when nothing was staked. */
  function Roi(totalReturn: int, totalBet: int): (r: real)
    ensures totalBet <= 0 ==> r == 0.0
    ensures totalBet > 0 ==> (r > 0.0 <==> totalReturn > totalBet) && (r == 0.0 <==> totalReturn == totalBet)
    ensures totalBet > 0 && totalReturn >= 0 ==> r >= -100.0
  {
    if totalBet > 0 then
      RoiSign(totalReturn, totalBet);
      (totalReturn as real / totalBet as real - 1.0) * 100.0
    else 0.0
  }

  /** `get_statistics`: counts, totals, profit and ROI over the predictions
      the window keeps. */
  function GetStatistics(ps: seq<Prediction>, startDate: Option<int>, endDate: Option<int>): (s: Statistics)
    ensures var selected := Window(ps, startDate, endDate);
      && s.totalPredictions == |selected|
      && s.hits == Hits(selected)
      && s.totalBet == TotalBet(selected) && s.totalReturn == TotalReturn(selected)
    ensures s.hits <= s.totalPredictions
    ensures 0.0 <= s.hitRate <= 1.0
    ensures s.totalPredictions == 0 ==> s.hitRate == 0.0
    ensures s.totalPredictions > 0 ==> s.hitRate == s.hits as real / s.totalPredictions as real
    ensures s.profit == s.totalReturn - s.totalBet
    ensures s.totalBet <= 0 ==> s.roi == 0.0
    ensures s.totalBet > 0 ==> (s.roi > 0.0 <==> s.profit > 0) && (s.roi == 0.0 <==> s.profit == 0)
    ensures s.totalBet > 0 ==> s.roi == (s.totalReturn as real / s.totalBet as real - 1.0) * 100.0
  {
    var selected := Window(ps, startDate, endDate);
    var total := |selected|;
    var hits := Hits(selected);
    var totalBet := TotalBet(selected);
    var totalReturn := TotalReturn(selected);
    Statistics(total, hits, HitRate(hits, total), totalBet, totalReturn, totalReturn - totalBet,
      Roi(totalReturn, totalBet))
  }

  /** The return on investment is positive exactly when the payout exceeds
      the stake, zero exactly when they are equal, and never below -100
      when payouts are not negative. */
  lemma RoiSign(totalReturn: int, totalBet: int)
    requires totalBet > 0
    ensures var roi := (totalReturn as real / totalBet as real - 1.0) * 100.0;
      && (roi > 0.0 <==> totalReturn > totalBet)
      && (roi == 0.0 <==> totalReturn == totalBet)
      && (totalReturn >= 0 ==> roi >= -100.0)
  {
    var q := totalReturn as real / totalBet as real;
    QuotientVersusOne(totalReturn as real, totalBet as real);
    var roi := (q - 1.0) * 100.0;
    assert roi == 100.0 * q - 100.0;
  }

  /** A payout divided by a positive stake compares with 1 as the payout
      compares with the stake, and is negative only when the payout is. */
  lemma QuotientVersusOne(r: real, b: real)
    requires b > 0.0
    ensures r / b > 1.0 ==> r > b
    ensures r / b < 1.0 ==> r < b
    ensures r / b == 1.0 ==> r == b
    ensures r / b < 0.0 ==> r < 0.0
  {
  }

  /** The statistics of two batches of predictions add up: counts and
      totals over a concatenation are the sums of the parts. */
  lemma {:induction false} TotalsAppend(a: seq<Prediction>, b: seq<Prediction>)
    ensures Hits(a + b) == Hits(a) + Hits(b)
    ensures TotalBet(a + b) == TotalBet(a) + TotalBet(b)
    ensures TotalReturn(a + b) == TotalReturn(a) + TotalReturn(b)
  {
    if b == [] {
      assert a + b == a;
    } else {
      var b' := b[..|b| - 1];
      TotalsAppend(a, b');
      assert (a + b)[..|a + b| - 1] == a + b';
      assert (a + b)[|a + b| - 1] == b[|b| - 1];
    }
  }

  /** With every stake and payout missing, totals are 0, so profit and ROI
      are 0 whatever the hits. */
  lemma {:induction false} MissingAmountsCountAsZero(ps: seq<Prediction>)
    requires forall k | 0 <= k < |ps| :: ps[k].betAmount.None? && ps[k].returnAmount.None?
    ensures TotalBet(ps) == 0 && TotalReturn(ps) == 0
  {
    if ps != [] {
      MissingAmountsCountAsZero(ps[..|ps| - 1]);
    }
  }
}
