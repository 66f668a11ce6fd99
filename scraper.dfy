/** The scraper's parsing rules, over the texts its selectors would find
    on the official race pages: the venue table, grade and weather
    classification, payout amounts, and the fixed six-slot layout of race
    cards and results. A selector that finds nothing is `None`. */
module Scraper {
  import opened Text

  // ---------------------------------------------------------------------------
  // Venues

  /** `VENUES`: the 24 venue codes and their names. */
  const Venues: map<string, string> := map[
    "01" := "桐生", "02" := "戸田", "03" := "江戸川", "04" := "平和島", "05" := "多摩川",
    "06" := "浜名湖", "07" := "蒲郡", "08" := "常滑", "09" := "津", "10" := "三国",
    "11" := "びわこ", "12" := "住之江", "13" := "尼崎", "14" := "鳴門", "15" := "丸亀",
    "16" := "児島", "17" := "宮島", "18" := "徳山", "19" := "下関", "20" := "若松",
    "21" := "芦屋", "22" := "福岡", "23" := "唐津", "24" := "大村"]

  const UnknownName: string := "不明"

  /** `VENUES.get(venue_code, "不明")`. */
  function VenueName(code: string): (r: string)
    ensures code in Venues ==> r == Venues[code]
    ensures code !in Venues ==> r == UnknownName
  {
    if code in Venues then Venues[code] else UnknownName
  }

  // ---------------------------------------------------------------------------
  // Grade and weather

  const General: string := "一般"

  /** The grade a label text announces: SG first, then G1 (also written
      with the Roman numeral Ⅰ), G2, G3; a missing label or one that names
      no grade leaves the race general. */
  function ClassifyGrade(labelText: Option<string>): (r: string)
    ensures labelText.None? ==> r == General
    ensures r == "SG" <==> labelText.Some? && Contains(labelText.value, "SG")
    ensures r == "G1" <==> (labelText.Some? && !Contains(labelText.value, "SG")
                            && (Contains(labelText.value, "G1") || Contains(labelText.value, "GⅠ")))
    ensures r == "G2" <==> (labelText.Some? && !Contains(labelText.value, "SG")
                            && !Contains(labelText.value, "G1") && !Contains(labelText.value, "GⅠ")
                            && (Contains(labelText.value, "G2") || Contains(labelText.value, "GⅡ")))
    ensures r == "G3" <==> (labelText.Some? && !Contains(labelText.value, "SG")
                            && !Contains(labelText.value, "G1") && !Contains(labelText.value, "GⅠ")
                            && !Contains(labelText.value, "G2") && !Contains(labelText.value, "GⅡ")
                            && (Contains(labelText.value, "G3") || Contains(labelText.value, "GⅢ")))
    ensures r in {"SG", "G1", "G2", "G3", General}
  {
    if labelText.None? then General
    else
      var t := labelText.value;
      if Contains(t, "SG") then "SG"
      else if Contains(t, "G1") || Contains(t, "GⅠ") then "G1"
      else if Contains(t, "G2") || Contains(t, "GⅡ") then "G2"
      else if Contains(t, "G3") || Contains(t, "GⅢ") then "G3"
      else General
  }

  /** A label naming two grades is classified by the higher one; the
      example label "G2・G3" is a G2 race. */
  lemma GradePrecedence(t: string)
    ensures Contains(t, "SG") ==> ClassifyGrade(Some(t)) == "SG"
    ensures !Contains(t, "SG") && Contains(t, "G1") ==> ClassifyGrade(Some(t)) == "G1"
    ensures (!Contains(t, "SG") && !Contains(t, "G1") && !Contains(t, "GⅠ") && Contains(t, "G2")) ==>
              ClassifyGrade(Some(t)) == "G2"
    ensures ClassifyGrade(Some(t)) == General <==>
              !Contains(t, "SG") && !Contains(t, "G1") && !Contains(t, "GⅠ") && !Contains(t, "G2")
              && !Contains(t, "GⅡ") && !Contains(t, "G3") && !Contains(t, "GⅢ")
  {
  }

  lemma MixedLabelIsG2()
    ensures ClassifyGrade(Some("G2・G3")) == "G2"
  {
    assert OccursAt("G2・G3", "G2", 0);
    NoG1InMixedLabel();
  }

  lemma NoG1InMixedLabel()
    ensures !Contains("G2・G3", "SG") && !Contains("G2・G3", "G1") && !Contains("G2・G3", "GⅠ")
  {
    var t := "G2・G3";
    forall i | 0 <= i <= |t| - 2 ensures !OccursAt(t, "SG", i) && !OccursAt(t, "G1", i) && !OccursAt(t, "GⅠ", i) {
      assert t[i + 1] != '1' && t[i + 1] != 'Ⅰ' && t[i] != 'S';
    }
  }

  /** The weather words, in the order they are tried. */
  const WeatherKeys: seq<char> := ['晴', '曇', '雨', '雪']

  /** The first of `keys` that occurs in `text`. */
  function FirstPresent(keys: seq<char>, text: string): (r: Option<nat>)
    ensures r.Some? ==> r.value < |keys| && keys[r.value] in text
    ensures r.Some? ==> forall k | 0 <= k < r.value :: keys[k] !in text
    ensures r.None? ==> forall k | 0 <= k < |keys| :: keys[k] !in text
  {
    if keys == [] then None
    else if keys[0] in text then Some(0)
    else
      var rest := FirstPresent(keys[1..], text);
      if rest.Some? then Some(rest.value + 1) else None
  }

  /** `_extract_weather`: the first of 晴, 曇, 雨, 雪 found in the text,
      otherwise 不明. */
  function ExtractWeather(text: string): (r: string)
    ensures r == UnknownName <==> forall k | 0 <= k < |WeatherKeys| :: WeatherKeys[k] !in text
    ensures r != UnknownName ==> exists k | 0 <= k < |WeatherKeys| ::
              r == [WeatherKeys[k]] && WeatherKeys[k] in text && forall j | 0 <= j < k :: WeatherKeys[j] !in text
  {
    var found := FirstPresent(WeatherKeys, text);
    if found.Some? then [WeatherKeys[found.value]] else UnknownName
  }

  /** Clear weather wins over every other word in the same text. */
  lemma ClearWins(text: string)
    requires '晴' in text
    ensures ExtractWeather(text) == "晴"
  {
  }

  // ---------------------------------------------------------------------------
  // Payouts

  /** `_parse_payout`: commas, 円 and ¥ are dropped and the rest is read as
      an integer; text that is not an integer gives 0. */
  function ParsePayout(text: string): (r: int)
    ensures ParseInt(RemoveChar(RemoveChar(RemoveChar(text, ','), '円'), '¥')).None? ==> r == 0
  {
    var clean := RemoveChar(RemoveChar(RemoveChar(text, ','), '円'), '¥');
    match ParseInt(clean)
    case Some(n) => n
    case None => 0
  }

  /** The characters the payout parser drops. */
  predicate NoSeparators(s: string) {
    ',' !in s && '円' !in s && '¥' !in s
  }

  lemma PrintedHasNoSeparators(n: int)
    ensures NoSeparators(IntToString(n))
  {
    var digits := NatToString(if n < 0 then -n else n);
    assert forall k | 0 <= k < |digits| :: IsDigit(digits[k]);
    if n < 0 {
      assert IntToString(n) == "-" + digits;
    }
  }

  /** Text without separators followed by one 円 sign loses just that
      sign. */
  lemma CleanOfPrinted(s: string)
    requires NoSeparators(s)
    ensures RemoveChar(RemoveChar(RemoveChar(s + "円", ','), '円'), '¥') == s
  {
    RemoveAppend(s, "円", ',');
    RemoveAbsent(s, ',');
    RemoveAbsent("円", ',');
    RemoveAppend(s, "円", '円');
    RemoveAbsent(s, '円');
    assert RemoveChar("円", '円') == [] by {
      assert "円"[..0] == [];
    }
    assert s + [] == s;
    RemoveAbsent(s, '¥');
  }

  /** A payout printed as a number followed by 円 reads back as that
      number. */
  lemma PayoutRoundTrip(n: int)
    ensures ParsePayout(IntToString(n) + "円") == n
  {
    PrintedHasNoSeparators(n);
    CleanOfPrinted(IntToString(n));
    IntRoundTrip(n);
  }

  /** The listed example: "¥12,340" is 12340. */
  lemma PayoutExample()
    ensures ParsePayout("¥12,340") == 12340
  {
    CleanExample();
    ParseExample();
  }

  lemma CleanExample()
    ensures RemoveChar(RemoveChar(RemoveChar("¥12,340", ','), '円'), '¥') == "12340"
  {
    CommaExample();
    RemoveAbsent("¥12340", '円');
    YenExample();
  }

  lemma YenExample()
    ensures RemoveChar("¥12340", '¥') == "12340"
  {
    assert "¥12340" == [] + ['¥'] + "12340";
    RemoveOneSeparator([], "12340", '¥');
  }

  lemma CommaExample()
    ensures RemoveChar("¥12,340", ',') == "¥12340"
  {
    assert "¥12,340" == "¥12" + [','] + "340";
    RemoveOneSeparator("¥12", "340", ',');
    assert "¥12" + "340" == "¥12340";
  }

  /** A single separator between two pieces without it is all that goes. */
  lemma RemoveOneSeparator(a: string, b: string, c: char)
    requires c !in a && c !in b
    ensures RemoveChar(a + [c] + b, c) == a + b
  {
    RemoveAppend(a + [c], b, c);
    RemoveAppend(a, [c], c);
    RemoveAbsent(a, c);
    RemoveAbsent(b, c);
    assert RemoveChar([c], c) == [] by {
      assert [c][..0] == [];
    }
    assert a + [] == a;
  }

  lemma ParseExample()
    ensures ParseInt("12340") == Some(12340)
  {
    StripOfUnspaced("12340");
    DigitsExample();
  }

  lemma DigitsExample()
    ensures AllDigits("12340") && DigitsValue("12340") == 12340
  {
    assert [] + ['1'] == "1";
    AppendDigit([], '1');
    assert "1" + ['2'] == "12";
    AppendDigit("1", '2');
    assert "12" + ['3'] == "123";
    AppendDigit("12", '3');
    assert "123" + ['4'] == "1234";
    AppendDigit("123", '4');
    assert "1234" + ['0'] == "12340";
    AppendDigit("1234", '0');
  }

  /** Appending a digit shifts the value one place left and adds it. */
  lemma AppendDigit(s: string, d: char)
    requires AllDigits(s) && IsDigit(d)
    ensures AllDigits(s + [d])
    ensures DigitsValue(s + [d]) == DigitsValue(s) * 10 + DigitValue(d)
  {
    assert (s + [d])[..|s|] == s;
  }

  // ---------------------------------------------------------------------------
  // Race information

  /** The texts the race page offers: the title, the grade label and the
      weather panel, each `None` when its element is missing. */
  datatype RacePage = RacePage(title: Option<string>, gradeLabel: Option<string>, weatherBody: Option<string>)

  /** The race dictionary; `weather` is `None` when the key is never set. */
  datatype RaceInfo = RaceInfo(
    venueCode: string,
    venueName: string,
    raceDate: int,
    raceNo: int,
    raceName: string,
    raceGrade: string,
    distance: int,
    weather: Option<string>)

  /** The stripped text of an element that may be missing. */
  function StrippedText(t: Option<string>): Option<string> {
    if t.Some? then Some(Strip(t.value)) else None
  }

  /** `_parse_race_info`: the dictionary starts with the defaults (unknown
      name, general grade, 1800 metres) and each element found on the page
      overrides its key. */
  method ParseRaceInfo(page: RacePage, venueCode: string, raceDate: int, raceNo: int) returns (info: RaceInfo)
    ensures info.venueCode == venueCode && info.raceDate == raceDate && info.raceNo == raceNo
    ensures info.venueName == VenueName(venueCode)
    ensures info.distance == 1800
    ensures info.raceName == (if page.title.Some? then Strip(page.title.value) else "")
    ensures info.raceGrade == ClassifyGrade(StrippedText(page.gradeLabel))
    ensures info.weather == (if page.weatherBody.Some? then Some(ExtractWeather(page.weatherBody.value)) else None)
  {
    info := RaceInfo(venueCode, VenueName(venueCode), raceDate, raceNo, "", General, 1800, None);
    if page.title.Some? {
      info := info.(raceName := Strip(page.title.value));
    }
    if page.gradeLabel.Some? {
      var gradeText := Strip(page.gradeLabel.value);
      if Contains(gradeText, "SG") {
        info := info.(raceGrade := "SG");
      } else if Contains(gradeText, "G1") || Contains(gradeText, "GⅠ") {
        info := info.(raceGrade := "G1");
      } else if Contains(gradeText, "G2") || Contains(gradeText, "GⅡ") {
        info := info.(raceGrade := "G2");
      } else if Contains(gradeText, "G3") || Contains(gradeText, "GⅢ") {
        info := info.(raceGrade := "G3");
      }
    }
    if page.weatherBody.Some? {
      info := info.(weather := Some(ExtractWeather(page.weatherBody.value)));
    }
  }

  // ---------------------------------------------------------------------------
  // Race card

  /** One row of the race card: its cell texts, and the name and class
      elements when present. */
  datatype CardRow = CardRow(cells: seq<string>, name: Option<string>, rank: Option<string>)

  /** One scraped entry. */
  datatype ScrapedEntry = ScrapedEntry(
    raceId: int,
    boatNo: int,
    racerRegistrationNo: string,
    racerName: string,
    racerRank: string,
    winRateAll: real,
    placeRate2All: real,
    winRateLocal: real,
    placeRate2Local: real,
    motorNo: string,
    motorRate2: real,
    boatNoActual: string,
    boatRate2: real,
    avgStartTiming: real)

  /** The entry for the row in lane `boatNo`: every rate is 0.0 and every
      text empty unless the row has at least three cells, in which case the
      registration number is the first cell and name and class come from
      their elements when present. */
  function EntryOfRow(raceId: int, boatNo: int, row: CardRow): (e: ScrapedEntry)
    ensures e.raceId == raceId && e.boatNo == boatNo
    ensures e.winRateAll == 0.0 && e.placeRate2All == 0.0 && e.winRateLocal == 0.0
         && e.placeRate2Local == 0.0 && e.motorRate2 == 0.0 && e.boatRate2 == 0.0 && e.avgStartTiming == 0.0
    ensures e.motorNo == "" && e.boatNoActual == ""
    ensures |row.cells| < 3 ==> e.racerRegistrationNo == "" && e.racerName == "" && e.racerRank == ""
  {
    var blank := ScrapedEntry(raceId, boatNo, "", "", "", 0.0, 0.0, 0.0, 0.0, "", 0.0, "", 0.0, 0.0);
    if |row.cells| >= 3 then
      blank.(racerRegistrationNo := Strip(row.cells[0]),
             racerName := if row.name.Some? then Strip(row.name.value) else "",
             racerRank := if row.rank.Some? then Strip(row.rank.value) else "")
    else blank
  }

  /** `_parse_entries`: at most the first six rows, numbered 1, 2, ... in
      row order. */
  method ParseEntries(rows: seq<CardRow>, raceId: int) returns (entries: seq<ScrapedEntry>)
    ensures |entries| == Min(6, |rows|)
    ensures forall k | 0 <= k < |entries| :: entries[k] == EntryOfRow(raceId, k + 1, rows[k])
    ensures forall k | 0 <= k < |entries| :: entries[k].boatNo == k + 1
  {
    var n := Min(6, |rows|);
    ghost var expected := seq(n, k requires 0 <= k < n => EntryOfRow(raceId, k + 1, rows[k]));
    entries := [];
    for i := 0 to n
      invariant entries == expected[..i]
    {
      var entry := ParseRow(rows[i], raceId, i + 1);
      assert entry == expected[i];
      PrefixExtend(expected, i);
      entries := entries + [entry];
    }
    assert expected[..n] == expected;
  }

  /** The body of `_parse_entries`'s loop: a blank entry for the lane, then
      the registration number, name and class when the row has three or
      more cells. */
  method ParseRow(row: CardRow, raceId: int, boatNo: int) returns (entry: ScrapedEntry)
    ensures entry == EntryOfRow(raceId, boatNo, row)
  {
    entry := ScrapedEntry(raceId, boatNo, "", "", "", 0.0, 0.0, 0.0, 0.0, "", 0.0, "", 0.0, 0.0);
    if |row.cells| >= 3 {
      entry := entry.(racerRegistrationNo := Strip(row.cells[0]));
      if row.name.Some? {
        entry := entry.(racerName := Strip(row.name.value));
      }
      if row.rank.Some? {
        entry := entry.(racerRank := Strip(row.rank.value));
      }
    }
  }

  // ---------------------------------------------------------------------------
  // Race result

  /** The trifecta block of the payout table: the winning combination and
      its payout text, each `None` when its element is missing. */
  datatype TrifectaBlock = TrifectaBlock(combination: Option<string>, payout: Option<string>)

  /** The result dictionary: places 1 to 6, then the trifecta combination
      and payout, each `None` when the key is never set. */
  datatype ScrapedResult = ScrapedResult(places: seq<int>, trifecta: Option<string>, trifectaPayout: Option<int>)

  /** The boat that finished in position `k + 1`: the number read from the
      `k`-th row, or 0 when there is no such row among the first six, the
      row has no number element, or its text is not an integer. */
  function PlaceOfRow(rows: seq<Option<string>>, k: nat): int {
    if k < 6 && k < |rows| && rows[k].Some? && ParseInt(Strip(rows[k].value)).Some?
    then ParseInt(Strip(rows[k].value)).value
    else 0
  }

  /** `_parse_result`. The places start at 0 and each of the first six rows
      that reads as an integer fills its place. The trifecta is read only
      when the payout table has a trifecta block: a missing combination
      sets nothing, and a missing payout sets the combination only. */
  method ParseResult(rows: seq<Option<string>>, table: Option<Option<TrifectaBlock>>) returns (result: ScrapedResult)
    ensures |result.places| == 6
    ensures forall k | 0 <= k < 6 :: result.places[k] == PlaceOfRow(rows, k)
    ensures result.trifecta ==
              (if table.Some? && table.value.Some? && table.value.value.combination.Some?
               then Some(Strip(table.value.value.combination.value)) else None)
    ensures result.trifectaPayout ==
              (if table.Some? && table.value.Some? && table.value.value.combination.Some?
                  && table.value.value.payout.Some?
               then Some(ParsePayout(Strip(table.value.value.payout.value))) else None)
  {
    var places := [0, 0, 0, 0, 0, 0];
    for i := 0 to Min(6, |rows|)
      invariant |places| == 6
      invariant forall k | 0 <= k < i :: places[k] == PlaceOfRow(rows, k)
      invariant forall k | i <= k < 6 :: places[k] == 0
    {
      if rows[i].Some? {
        var boatNo := ParseInt(Strip(rows[i].value));
        if boatNo.Some? {
          places := places[i := boatNo.value];
        }
      }
    }
    result := ScrapedResult(places, None, None);
    if table.Some? && table.value.Some? {
      var block := table.value.value;
      if block.combination.Some? {
        result := result.(trifecta := Some(Strip(block.combination.value)));
        if block.payout.Some? {
          var payoutText := Strip(block.payout.value);
          result := result.(trifectaPayout := Some(ParsePayout(payoutText)));
        }
      }
    }
  }

  /** Rows after the sixth never affect the places, and a row that does not
      read as an integer leaves its place at 0. */
  lemma OnlySixRowsRead(rows: seq<Option<string>>, extra: seq<Option<string>>, k: nat)
    requires |rows| >= 6 && k < 6
    ensures PlaceOfRow(rows + extra, k) == PlaceOfRow(rows, k)
    ensures rows[k].None? || ParseInt(Strip(rows[k].value)).None? ==> PlaceOfRow(rows, k) == 0
  {
    assert (rows + extra)[k] == rows[k];
  }
}
