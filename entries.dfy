/** The race-entry record the two predictors read, and the small lookups
    they share. Every column of the stored entry may be null; `None` is
    Python's `None`. */
module Entries {
  import opened Text

  /** One row of the race card (`RaceEntry`). */
  datatype RaceEntry = RaceEntry(
    raceId: int,
    boatNo: int,
    racerRank: Option<string>,
    winRateAll: Option<real>,
    placeRate2All: Option<real>,
    winRateLocal: Option<real>,
    placeRate2Local: Option<real>,
    motorRate2: Option<real>,
    boatRate2: Option<real>,
    currentSeriesResults: Option<string>,
    avgStartTiming: Option<real>,
    weight: Option<real>)

  /** Python's `x or 0` for a nullable number: `None` and zero both give zero. */
  function OrZero(x: Option<real>): (r: real)
    ensures x.Some? ==> r == x.value
    ensures x.None? ==> r == 0.0
  {
    if x.Some? then x.value else 0.0
  }

  /** Python's `x or d` for a nullable number: `None` and zero both give `d`. */
  function OrDefault(x: Option<real>, d: real): (r: real)
    ensures x.Some? && x.value != 0.0 ==> r == x.value
    ensures x.None? || x.value == 0.0 ==> r == d
  {
    if x.Some? && x.value != 0.0 then x.value else d
  }

  /** `_rank_to_numeric`: the racer class as a number, higher is better;
      an unknown class counts as B1. */
  function RankToNumeric(rank: Option<string>): (n: int)
    ensures 1 <= n <= 4
    ensures n == 4 <==> rank == Some("A1")
    ensures n == 3 <==> rank == Some("A2")
    ensures n == 1 <==> rank == Some("B2")
    ensures rank.None? ==> n == 2
  {
    match rank
    case Some(r) =>
      if r == "A1" then 4 else if r == "A2" then 3 else if r == "B1" then 2 else if r == "B2" then 1 else 2
    case None => 2
  }

  /** The recommended order: the first three boat numbers (or fewer, for a
      smaller race) joined with `-`. */
  function Recommendation(boats: seq<int>): string {
    Join(seq(Min(3, |boats|), k requires 0 <= k < Min(3, |boats|) => IntToString(boats[k])), "-")
  }

  /** With at least three boats numbered 0 to 9, the recommendation is a
      trifecta token of the form the MAGI parser reads. */
  lemma RecommendationIsTrifecta(boats: seq<int>)
    requires |boats| >= 3
    requires forall k | 0 <= k < 3 :: 0 <= boats[k] <= 9
    ensures IsTrifecta(Recommendation(boats))
  {
    var a, b, c := DigitChar(boats[0]), DigitChar(boats[1]), DigitChar(boats[2]);
    assert IntToString(boats[0]) == [a] && IntToString(boats[1]) == [b] && IntToString(boats[2]) == [c];
    assert Min(3, |boats|) == 3;
    var parts := seq(3, k requires 0 <= k < 3 => IntToString(boats[k]));
    assert parts == [[a], [b], [c]];
    assert parts[..2] == [[a], [b]];
    assert parts[..2][..1] == [[a]];
    assert Join(parts[..2], "-") == [a] + "-" + [b];
    assert Join(parts, "-") == [a] + "-" + [b] + "-" + [c];
    assert seq(Min(3, |boats|), k requires 0 <= k < Min(3, |boats|) => IntToString(boats[k])) == parts;
    assert [a] + "-" + [b] + "-" + [c] == [a, '-', b, '-', c];
  }
}
