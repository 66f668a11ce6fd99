/** The MAGI multi-AI consensus: four fixed provider slots, each turned into a
    tagged result (`disabled`, `success` or `error`), then a plurality vote
    over the trifecta tokens the successful answers contain. The providers'
    HTTP calls are an oracle: what a call would return is an input. */
module Magi {
  import opened Text

  datatype Provider = Claude | OpenAI | Gemini | Grok

  /** The order in which `magi_analyze` builds its tasks, which is the order
      of `results` and hence the order in which votes are counted. */
  const Providers: seq<Provider> := [Claude, OpenAI, Gemini, Grok]

  function ProviderId(p: Provider): string {
    match p
    case Claude => "claude"
    case OpenAI => "openai"
    case Gemini => "gemini"
    case Grok => "grok"
  }

  /** `MAGI_NAMES`. */
  function MagiName(p: Provider): (name: string)
    ensures name in {"MELCHIOR", "BALTHASAR", "CASPER", "RAMIEL"}
  {
    match p
    case Claude => "MELCHIOR"
    case OpenAI => "BALTHASAR"
    case Gemini => "CASPER"
    case Grok => "RAMIEL"
  }

  /** `AIServiceConfig`. */
  datatype ServiceConfig = ServiceConfig(enabled: bool, apiKey: Option<string>, model: Option<string>)

  /** `MAGIConfig`: one slot per provider. */
  datatype MagiConfig = MagiConfig(claude: ServiceConfig, openai: ServiceConfig,
                                   gemini: ServiceConfig, grok: ServiceConfig)

  function ConfigFor(config: MagiConfig, p: Provider): ServiceConfig {
    match p
    case Claude => config.claude
    case OpenAI => config.openai
    case Gemini => config.gemini
    case Grok => config.grok
  }

  /** A provider is called only when it is enabled and has a non-empty key. */
  predicate Usable(c: ServiceConfig) {
    c.enabled && c.apiKey.Some? && c.apiKey.value != ""
  }

  /** What one provider call yields: its answer text, token usage and model
      name, or the exception it raised, as `str(e)`. */
  datatype CallOutcome = Ok(text: string, tokens: int, model: string) | Fail(message: string)

  datatype Status = Success | Error | Disabled

  /** `AIResult`. */
  datatype AIResult = AIResult(
    name: string,
    provider: Provider,
    model: string,
    status: Status,
    prediction: Option<string>,
    analysis: Option<string>,
    confidence: Option<string>,
    error: Option<string>,
    tokensUsed: Option<int>)

  function DisabledResult(p: Provider): AIResult {
    AIResult(MagiName(p), p, "", Disabled, None, None, None, None, None)
  }

  /** `call_ai_service`: a provider that may not be called is `disabled`
      whatever its call would have returned; an exception becomes `error`
      and never escapes; an answer becomes `success` with the trifecta and
      the confidence label parsed from its text. */
  function CallAiService(p: Provider, config: ServiceConfig, outcome: CallOutcome): (r: AIResult)
    ensures r.provider == p && r.name == MagiName(p)
    ensures !Usable(config) ==> r == DisabledResult(p)
    ensures r.status == Disabled <==> !Usable(config)
    ensures r.status == Success <==> Usable(config) && outcome.Ok?
    ensures r.status == Success ==>
              && r.prediction == ParsePrediction(outcome.text)
              && r.confidence == ParseConfidence(outcome.text)
              && r.analysis == Some(outcome.text)
              && r.tokensUsed == Some(outcome.tokens)
              && r.model == outcome.model
              && r.error == None
    ensures r.status == Error ==>
              && r.error == Some(outcome.message)
              && r.model == (if config.model.Some? then config.model.value else "")
              && r.prediction == None
  {
    if !Usable(config) then DisabledResult(p)
    else match outcome
      case Ok(text, tokens, model) =>
        AIResult(MagiName(p), p, model, Success, ParsePrediction(text), Some(text),
                 ParseConfidence(text), None, Some(tokens))
      case Fail(message) =>
        AIResult(MagiName(p), p, if config.model.Some? then config.model.value else "",
                 Error, None, None, None, Some(message), None)
  }

  // ---------------------------------------------------------------------------
  // Parsing the answer text

  const PredictionHeader: string := "■予想買い目"
  const PredictionLabel: string := "買い目"
  const ConfidenceHeader: string := "■自信度"
  const ConfidenceLabels: set<string> := {"高", "中", "低"}

  /** The four regular expressions of `parse_prediction` and `parse_confidence`:
      `■予想買い目[^\n]*\n\s*(\d-\d-\d)`, `買い目[：:]\s*(\d-\d-\d)`,
      `(\d-\d-\d)` and `■自信度[^\n]*\n\s*(高|中|低)`. */
  datatype Pattern = HeaderTrifecta | LabelTrifecta | BareTrifecta | HeaderConfidence

  /** For `<header>[^\n]*\n\s*`: the index just past the whitespace that
      follows the end of the header's line, when `header` occurs at `i` and
      its line ends. Neither `[^\n]*` nor `\s*` can give back characters the
      rest of the pattern could use, so the match is unique. */
  function AfterHeaderLine(text: string, header: string, i: nat): (m: Option<nat>)
    ensures m.Some? ==> OccursAt(text, header, i) && m.value <= |text|
  {
    if !OccursAt(text, header, i) then None
    else match IndexOf(text, '\n', i + |header|)
      case None => None
      case Some(k) => Some(SkipSpaces(text, k + 1))
  }

  /** The trifecta starting at `m`, if there is one. */
  function TrifectaFrom(text: string, m: nat): (r: Option<string>)
    ensures r.Some? ==> TrifectaAt(text, m) && r.value == text[m..m + 5]
  {
    if TrifectaAt(text, m) then Some(text[m..m + 5]) else None
  }

  /** Group 1 of the pattern when it matches starting exactly at `i`. */
  function MatchAt(pat: Pattern, text: string, i: nat): (r: Option<string>)
    ensures r.Some? ==> i < |text|
    ensures r.Some? && pat != HeaderConfidence ==> IsTrifecta(r.value) && Contains(text, r.value)
    ensures r.Some? && pat == HeaderConfidence ==>
              r.value in ConfidenceLabels && r.value[0] in text && Contains(text, ConfidenceHeader)
  {
    match pat
    case HeaderTrifecta =>
      (match AfterHeaderLine(text, PredictionHeader, i)
       case None => None
       case Some(m) => TrifectaFound(text, m))
    case LabelTrifecta =>
      if OccursAt(text, PredictionLabel, i) && i + 3 < |text| && text[i + 3] in {'：', ':'}
      then TrifectaFound(text, SkipSpaces(text, i + 4))
      else None
    case BareTrifecta => TrifectaFound(text, i)
    case HeaderConfidence =>
      (match AfterHeaderLine(text, ConfidenceHeader, i)
       case None => None
       case Some(m) =>
         if m < |text| && text[m] in {'高', '中', '低'} then
           assert OccursAt(text, ConfidenceHeader, i);
           Some([text[m]])
         else None)
  }

  /** `TrifectaFrom`, with the witness that its token occurs in the text. */
  function TrifectaFound(text: string, m: nat): (r: Option<string>)
    ensures r == TrifectaFrom(text, m)
    ensures r.Some? ==> IsTrifecta(r.value) && Contains(text, r.value) && m < |text|
  {
    var r := TrifectaFrom(text, m);
    if r.Some? then
      assert OccursAt(text, r.value, m);
      r
    else r
  }

  /** `re.search` from index `from`: the leftmost index at which the pattern matches. */
  function Leftmost(pat: Pattern, text: string, from: nat): (r: Option<nat>)
    decreases |text| + 1 - from
    ensures r.Some? ==> from <= r.value < |text| && MatchAt(pat, text, r.value).Some?
    ensures r.Some? ==> forall j | from <= j < r.value :: MatchAt(pat, text, j).None?
    ensures r.None? ==> forall j | from <= j :: MatchAt(pat, text, j).None?
  {
    if from >= |text| then None
    else if MatchAt(pat, text, from).Some? then Some(from)
    else Leftmost(pat, text, from + 1)
  }

  /** `re.search(pattern, text)` followed by `match.group(1)`. */
  function Search(pat: Pattern, text: string): (r: Option<string>)
    ensures r.Some? <==> exists i :: MatchAt(pat, text, i).Some?
    ensures r.Some? ==> exists i: nat :: r == MatchAt(pat, text, i) && forall j: nat | j < i :: MatchAt(pat, text, j).None?
    ensures r.Some? && pat != HeaderConfidence ==> IsTrifecta(r.value) && Contains(text, r.value)
  {
    match Leftmost(pat, text, 0)
    case None => None
    case Some(i) => MatchAt(pat, text, i)
  }

  const PredictionPatterns: seq<Pattern> := [HeaderTrifecta, LabelTrifecta, BareTrifecta]

  /** The loop of `parse_prediction`: the first pattern of the list that
      matches anywhere decides. */
  function FirstMatch(patterns: seq<Pattern>, text: string): (r: Option<string>)
    requires HeaderConfidence !in patterns
    ensures r.Some? ==> IsTrifecta(r.value) && Contains(text, r.value)
    ensures r.None? <==> forall k | 0 <= k < |patterns| :: Search(patterns[k], text).None?
    ensures r.Some? ==> exists k | 0 <= k < |patterns| ::
              && r == Search(patterns[k], text)
              && forall j | 0 <= j < k :: Search(patterns[j], text).None?
  {
    if patterns == [] then None
    else match Search(patterns[0], text)
      case Some(token) => Some(token)
      case None =>
        var r := FirstMatch(patterns[1..], text);
        if r.Some? then
          var k :| 0 <= k < |patterns[1..]| && r == Search(patterns[1..][k], text)
                   && forall j | 0 <= j < k :: Search(patterns[1..][j], text).None?;
          assert forall j | 0 <= j < k + 1 :: Search(patterns[j], text).None? by {
            forall j | 0 <= j < k + 1 ensures Search(patterns[j], text).None? {
              if j > 0 { assert patterns[j] == patterns[1..][j - 1]; }
            }
          }
          assert patterns[k + 1] == patterns[1..][k];
          r
        else r
  }

  /** `parse_prediction`: the trifecta under the `■予想買い目` header if
      there is one, else the one after a `買い目：` label, else the first bare
      one; `None` exactly when the text holds no trifecta at all. */
  function ParsePrediction(text: string): (r: Option<string>)
    ensures r.Some? ==> IsTrifecta(r.value) && Contains(text, r.value)
    ensures r.None? <==> !HasTrifecta(text)
    ensures Search(HeaderTrifecta, text).Some? ==> r == Search(HeaderTrifecta, text)
    ensures Search(HeaderTrifecta, text).None? && Search(LabelTrifecta, text).Some? ==>
              r == Search(LabelTrifecta, text)
    ensures Search(HeaderTrifecta, text).None? && Search(LabelTrifecta, text).None? ==>
              r == Search(BareTrifecta, text)
  {
    BareSearchFindsTrifecta(text);
    FirstOfThree(HeaderTrifecta, LabelTrifecta, BareTrifecta, text);
    FirstMatch(PredictionPatterns, text)
  }

  /** The loop over three patterns, unrolled. */
  lemma FirstOfThree(a: Pattern, b: Pattern, c: Pattern, text: string)
    requires HeaderConfidence !in [a, b, c]
    ensures FirstMatch([a, b, c], text) ==
      if Search(a, text).Some? then Search(a, text)
      else if Search(b, text).Some? then Search(b, text)
      else Search(c, text)
  {
    assert [a, b, c][1..] == [b, c];
    assert [b, c][1..] == [c];
    assert [c][1..] == [];
    FirstMatchStep([a, b, c], text);
    FirstMatchStep([b, c], text);
    FirstMatchStep([c], text);
  }

  lemma FirstMatchStep(patterns: seq<Pattern>, text: string)
    requires patterns != [] && HeaderConfidence !in patterns
    ensures FirstMatch(patterns, text) ==
      if Search(patterns[0], text).Some? then Search(patterns[0], text) else FirstMatch(patterns[1..], text)
  {
  }

  /** The bare pattern matches exactly when the text holds a trifecta, and
      the other two can match only then. */
  lemma BareSearchFindsTrifecta(text: string)
    ensures Search(BareTrifecta, text).Some? <==> HasTrifecta(text)
    ensures Search(HeaderTrifecta, text).Some? ==> HasTrifecta(text)
    ensures Search(LabelTrifecta, text).Some? ==> HasTrifecta(text)
  {
    ContainedTrifecta(text, Search(HeaderTrifecta, text));
    ContainedTrifecta(text, Search(LabelTrifecta, text));
    ContainedTrifecta(text, Search(BareTrifecta, text));
    if HasTrifecta(text) {
      var i :| 0 <= i <= |text| && TrifectaAt(text, i);
      assert MatchAt(BareTrifecta, text, i).Some?;
    }
  }

  /** The bare pattern returns the leftmost trifecta of the text. */
  lemma BareSearchIsFirstTrifecta(text: string)
    ensures Search(BareTrifecta, text).Some? ==>
      exists i: nat :: && TrifectaAt(text, i)
                       && Search(BareTrifecta, text) == Some(text[i..i + 5])
                       && forall j: nat | j < i :: !TrifectaAt(text, j)
  {
    if Search(BareTrifecta, text).Some? {
      var i: nat :| Search(BareTrifecta, text) == MatchAt(BareTrifecta, text, i)
                    && forall j: nat | j < i :: MatchAt(BareTrifecta, text, j).None?;
      forall j: nat | j < i ensures !TrifectaAt(text, j) {
        assert MatchAt(BareTrifecta, text, j) == TrifectaFrom(text, j);
      }
      assert MatchAt(BareTrifecta, text, i) == TrifectaFrom(text, i);
    }
  }

  lemma ContainedTrifecta(text: string, token: Option<string>)
    requires token.Some? ==> IsTrifecta(token.value) && Contains(text, token.value)
    ensures token.Some? ==> HasTrifecta(text)
  {
    if token.Some? {
      var i :| 0 <= i <= |text| - 5 && OccursAt(text, token.value, i);
      assert text[i..i + 5] == token.value;
      assert TrifectaAt(text, i);
    }
  }

  /** `parse_confidence` as written: three presence tests, then the
      `■自信度` pattern as a fallback. */
  function ParseConfidence(text: string): (r: Option<string>)
    ensures r.Some? ==> r.value in ConfidenceLabels && Contains(text, "自信")
  {
    if '高' in text && Contains(text, "自信") then Some("高")
    else if '中' in text && Contains(text, "自信") then Some("中")
    else if '低' in text && Contains(text, "自信") then Some("低")
    else match Search(HeaderConfidence, text)
      case Some(found) => ConfidenceHeaderHasSelf(text); Some(found)
      case None => None
  }

  lemma ConfidenceHeaderHasSelf(text: string)
    requires Contains(text, ConfidenceHeader)
    ensures Contains(text, "自信")
  {
    var i :| 0 <= i <= |text| - |ConfidenceHeader| && OccursAt(text, ConfidenceHeader, i);
    assert OccursAt(ConfidenceHeader, "自信", 1);
    OccursWithin(text, ConfidenceHeader, i, "自信", 1);
    assert 0 <= i + 1 <= |text| - |"自信"|;
  }

  /** An occurrence inside an occurrence is an occurrence. */
  lemma OccursWithin(s: string, p: string, i: int, q: string, j: int)
    requires OccursAt(s, p, i) && OccursAt(p, q, j)
    ensures OccursAt(s, q, i + j)
  {
    var inner := s[i..i + |p|];
    forall k | 0 <= k < |q| ensures s[i + j + k] == q[k] {
      assert q[k] == p[j + k] == inner[j + k];
    }
    assert s[i + j..i + j + |q|] == q;
  }

  /** The fallback pattern of `parse_confidence` can never decide: whenever
      it would match, `自信` and the captured label both occur in the text,
      so one of the three presence tests has already answered. What is left
      is position-blind: no `自信` means `None`; otherwise 高 beats 中 beats
      低 wherever they stand. */
  lemma ConfidenceByPresence(text: string)
    ensures ParseConfidence(text) ==
      if !Contains(text, "自信") then None
      else if '高' in text then Some("高")
      else if '中' in text then Some("中")
      else if '低' in text then Some("低")
      else None
  {
    match Search(HeaderConfidence, text)
    case Some(found) =>
      var i :| Search(HeaderConfidence, text) == MatchAt(HeaderConfidence, text, i);
      assert found[0] in text && Contains(text, ConfidenceHeader);
      ConfidenceHeaderHasSelf(text);
      assert found == "高" || found == "中" || found == "低";
    case None =>
  }

  // ---------------------------------------------------------------------------
  // Consensus

  /** A result casts a vote when it succeeded with a non-empty prediction. */
  predicate CastsVote(r: AIResult) {
    r.status == Success && r.prediction.Some? && r.prediction.value != ""
  }

  /** The list comprehension of `calculate_consensus`: the votes, in result order. */
  function Votes(results: seq<AIResult>): (votes: seq<string>)
    ensures |votes| <= |results|
  {
    if results == [] then []
    else
      var last := results[|results| - 1];
      Votes(results[..|results| - 1]) + (if CastsVote(last) then [last.prediction.value] else [])
  }

  /** How many times `x` occurs in `s`. */
  function Occurrences(s: seq<string>, x: string): (n: nat)
    ensures n <= |s|
    ensures n > 0 <==> x in s
  {
    if s == [] then 0
    else Occurrences(s[..|s| - 1], x) + (if s[|s| - 1] == x then 1 else 0)
  }

  /** The distinct elements of `s`, each where it first occurs. */
  function Distinct(s: seq<string>): (d: seq<string>)
    ensures forall x :: x in d <==> x in s
    ensures forall a, b | 0 <= a < b < |d| :: d[a] != d[b]
  {
    if s == [] then []
    else
      var init, x := s[..|s| - 1], s[|s| - 1];
      assert s == init + [x];
      Distinct(init) + (if x in init then [] else [x])
  }

  /** Index of the first occurrence of `x` in `s`. */
  function FirstIndex(s: seq<string>, x: string): (i: nat)
    requires x in s
    ensures i < |s| && s[i] == x && forall j | 0 <= j < i :: s[j] != x
  {
    if s[0] == x then 0 else 1 + FirstIndex(s[1..], x)
  }

  lemma FirstIndexAppend(s: seq<string>, y: string, x: string)
    requires x in s
    ensures FirstIndex(s + [y], x) == FirstIndex(s, x)
  {
    var j := FirstIndex(s, x);
    assert (s + [y])[j] == x;
    forall k | 0 <= k < j ensures (s + [y])[k] != x {
      assert (s + [y])[k] == s[k];
    }
  }

  /** `Distinct` keeps first-seen order: an element listed earlier was seen earlier. */
  lemma {:induction false} DistinctFirstSeen(s: seq<string>, a: nat, b: nat)
    requires a < b < |Distinct(s)|
    ensures FirstIndex(s, Distinct(s)[a]) < FirstIndex(s, Distinct(s)[b])
  {
    var init, x := s[..|s| - 1], s[|s| - 1];
    assert s == init + [x];
    DistinctSnoc(init, x);
    var d' := Distinct(init);
    FirstIndexAppend(init, x, d'[a]);
    if b < |d'| {
      DistinctFirstSeen(init, a, b);
      FirstIndexAppend(init, x, d'[b]);
    } else {
      FirstIndexOfNew(init, x);
    }
  }

  lemma FirstIndexOfNew(init: seq<string>, x: string)
    requires x !in init
    ensures FirstIndex(init + [x], x) == |init|
  {
    forall k | 0 <= k < |init| ensures (init + [x])[k] != x {
      assert (init + [x])[k] == init[k];
    }
  }

  /** A `Counter` in insertion order: each distinct token with its count. */
  type Tally = seq<(string, nat)>

  /** The first index of the tally whose token is `x`. */
  function KeyIndex(t: Tally, x: string): (r: Option<nat>)
    ensures r.Some? ==> r.value < |t| && t[r.value].0 == x
    ensures r.None? ==> forall k | 0 <= k < |t| :: t[k].0 != x
  {
    if t == [] then None
    else if t[0].0 == x then Some(0)
    else match KeyIndex(t[1..], x)
      case None => None
      case Some(k) => Some(k + 1)
  }

  /** One step of `Counter(votes)`: bump the token's count, or append it with count 1. */
  function TallyAdd(t: Tally, x: string): Tally {
    match KeyIndex(t, x)
    case Some(k) => t[k := (x, t[k].1 + 1)]
    case None => t + [(x, 1)]
  }

  /** `Counter(votes)`, built one vote at a time: the distinct tokens in the
      order first seen, each with the number of votes it received. */
  function Counter(votes: seq<string>): (t: Tally)
    ensures |t| == |Distinct(votes)|
    ensures forall k | 0 <= k < |t| ::
              t[k] == (Distinct(votes)[k], Occurrences(votes, Distinct(votes)[k]))
  {
    if votes == [] then []
    else
      var init, x := votes[..|votes| - 1], votes[|votes| - 1];
      var t := Counter(init);
      TallyAddCounts(init, x, t);
      assert init + [x] == votes;
      TallyAdd(t, x)
  }

  /** One step of `Counter`: adding a vote to a correct tally of `init`
      gives a correct tally of `init + [x]`. */
  lemma TallyAddCounts(init: seq<string>, x: string, t: Tally)
    requires |t| == |Distinct(init)|
    requires forall k | 0 <= k < |t| :: t[k] == (Distinct(init)[k], Occurrences(init, Distinct(init)[k]))
    ensures var votes := init + [x];
      && |TallyAdd(t, x)| == |Distinct(votes)|
      && forall k | 0 <= k < |TallyAdd(t, x)| ::
           TallyAdd(t, x)[k] == (Distinct(votes)[k], Occurrences(votes, Distinct(votes)[k]))
  {
    match KeyIndex(t, x)
    case Some(i) => TallyBump(init, x, t, i);
    case None => TallyAppend(init, x, t);
  }

  /** A token missing from a correct tally of `init` was never voted for. */
  lemma AbsentFromTally(init: seq<string>, x: string, t: Tally)
    requires |t| == |Distinct(init)|
    requires forall k | 0 <= k < |t| :: t[k].0 == Distinct(init)[k]
    requires forall k | 0 <= k < |t| :: t[k].0 != x
    ensures x !in init
  {
    var d := Distinct(init);
    assert forall k | 0 <= k < |d| :: d[k] != x;
    assert x !in d;
  }

  lemma DistinctSnoc(init: seq<string>, x: string)
    ensures Distinct(init + [x]) == Distinct(init) + (if x in init then [] else [x])
  {
    assert (init + [x])[..|init|] == init;
  }

  lemma OccurrencesSnoc(init: seq<string>, x: string, y: string)
    ensures Occurrences(init + [x], y) == Occurrences(init, y) + (if x == y then 1 else 0)
  {
    assert (init + [x])[..|init|] == init;
  }

  /** A vote for a token already in the tally bumps its count and no other. */
  lemma TallyBump(init: seq<string>, x: string, t: Tally, i: nat)
    requires |t| == |Distinct(init)|
    requires forall k | 0 <= k < |t| :: t[k] == (Distinct(init)[k], Occurrences(init, Distinct(init)[k]))
    requires KeyIndex(t, x) == Some(i)
    ensures var votes := init + [x];
      && |TallyAdd(t, x)| == |Distinct(votes)|
      && forall k | 0 <= k < |TallyAdd(t, x)| ::
           TallyAdd(t, x)[k] == (Distinct(votes)[k], Occurrences(votes, Distinct(votes)[k]))
  {
    assert TallyAdd(t, x) == t[i := (x, t[i].1 + 1)];
    var d := Distinct(init);
    assert d[i] == x && x in init;
    DistinctSnoc(init, x);
    assert Distinct(init + [x]) == d;
    forall k | 0 <= k < |t|
      ensures t[i := (x, t[i].1 + 1)][k] == (d[k], Occurrences(init + [x], d[k]))
    {
      OccurrencesSnoc(init, x, d[k]);
      if k != i {
        assert d[k] != d[i];
      }
    }
  }

  /** A vote for a new token appends it with count 1. */
  lemma TallyAppend(init: seq<string>, x: string, t: Tally)
    requires |t| == |Distinct(init)|
    requires forall k | 0 <= k < |t| :: t[k] == (Distinct(init)[k], Occurrences(init, Distinct(init)[k]))
    requires KeyIndex(t, x) == None
    ensures var votes := init + [x];
      && |TallyAdd(t, x)| == |Distinct(votes)|
      && forall k | 0 <= k < |TallyAdd(t, x)| ::
           TallyAdd(t, x)[k] == (Distinct(votes)[k], Occurrences(votes, Distinct(votes)[k]))
  {
    AbsentFromTally(init, x, t);
    assert TallyAdd(t, x) == t + [(x, 1)];
    var d := Distinct(init);
    var votes := init + [x];
    DistinctSnoc(init, x);
    var d' := d + [x];
    assert Distinct(votes) == d';
    var r := t + [(x, 1)];
    forall k | 0 <= k < |t| + 1 ensures r[k] == (d'[k], Occurrences(votes, d'[k])) {
      if k < |t| {
        var y := d[k];
        assert r[k] == t[k] && d'[k] == y;
        assert y in init && y != x;
        OccurrencesSnoc(init, x, y);
        assert Occurrences(votes, y) == Occurrences(init, y);
        assert r[k] == (y, Occurrences(votes, y));
      } else {
        OccurrencesSnoc(init, x, x);
        assert Occurrences(init, x) == 0;
        assert Occurrences(votes, x) == 1;
        assert r[k] == (x, Occurrences(votes, x)) && d'[k] == x;
      }
    }
  }

  function SumCounts(t: Tally): nat {
    if t == [] then 0 else SumCounts(t[..|t| - 1]) + t[|t| - 1].1
  }

  lemma {:induction false} SumCountsBump(t: Tally, k: nat, e: (string, nat))
    requires k < |t| && e.1 == t[k].1 + 1
    ensures SumCounts(t[k := e]) == SumCounts(t) + 1
  {
    var init := t[..|t| - 1];
    if k < |t| - 1 {
      assert t[k := e][..|t| - 1] == init[k := e];
      SumCountsBump(init, k, e);
    } else {
      assert t[k := e][..|t| - 1] == init;
    }
  }

  /** The counts of `Counter(votes)` add up to the number of votes. */
  lemma {:induction false} CounterSum(votes: seq<string>)
    ensures SumCounts(Counter(votes)) == |votes|
  {
    if votes != [] {
      var init, x := votes[..|votes| - 1], votes[|votes| - 1];
      CounterSum(init);
      var t := Counter(init);
      match KeyIndex(t, x)
      case Some(k) => SumCountsBump(t, k, (x, t[k].1 + 1));
      case None => assert (t + [(x, 1)])[..|t|] == t;
    }
  }

  /** `max(items, key=count)`, which is what `Counter.most_common(1)`
      computes: the index of the first entry with the largest count. */
  function MostCommon(t: Tally): (i: nat)
    requires |t| > 0
    ensures i < |t|
    ensures forall k | 0 <= k < |t| :: t[k].1 <= t[i].1
    ensures forall k | 0 <= k < i :: t[k].1 < t[i].1
  {
    if |t| == 1 then 0
    else
      var j := MostCommon(t[..|t| - 1]);
      if t[|t| - 1].1 > t[j].1 then |t| - 1 else j
  }

  /** The triple `calculate_consensus` returns. */
  datatype Consensus = Consensus(winner: Option<string>, rate: real, voteDetail: Tally)

  /** The plurality winner among `votes`: a token with the largest count,
      and of those the one seen first. */
  ghost predicate IsPluralityWinner(votes: seq<string>, w: string) {
    && w in votes
    && (forall x | x in votes :: Occurrences(votes, x) <= Occurrences(votes, w))
    && (forall x | x in votes && Occurrences(votes, x) == Occurrences(votes, w) ::
          FirstIndex(votes, w) <= FirstIndex(votes, x))
  }

  /** `calculate_consensus`: a plurality vote over the counted predictions.
      There is no winner only when no prediction counts; otherwise the rate
      is the winner's share of the counted predictions (not of the providers
      that took part), and the vote detail is the full count. */
  function CalculateConsensus(results: seq<AIResult>): (c: Consensus)
    ensures var votes := Votes(results);
      && (votes == [] <==> c.winner.None?)
      && (votes == [] ==> c.rate == 0.0 && c.voteDetail == [])
      && c.voteDetail == Counter(votes)
      && (c.winner.Some? ==>
            && IsPluralityWinner(votes, c.winner.value)
            && c.rate == Occurrences(votes, c.winner.value) as real / |votes| as real
            && 0.0 < c.rate <= 1.0)
  {
    var votes := Votes(results);
    if votes == [] then Consensus(None, 0.0, [])
    else
      var counts := Counter(votes);
      assert votes[0] in Distinct(votes);
      var i := MostCommon(counts);
      WinnerIsPlurality(votes, i);
      var n := Occurrences(votes, counts[i].0);
      ShareBounds(n, |votes|);
      Consensus(Some(counts[i].0), counts[i].1 as real / |votes| as real, counts)
  }

  /** The plurality winner is unique, so the contract of
      `CalculateConsensus` determines its winner. */
  lemma PluralityWinnerUnique(votes: seq<string>, w1: string, w2: string)
    requires IsPluralityWinner(votes, w1) && IsPluralityWinner(votes, w2)
    ensures w1 == w2
  {
    assert FirstIndex(votes, w1) == FirstIndex(votes, w2);
  }

  lemma ShareBounds(n: nat, total: nat)
    requires 0 < n <= total
    ensures 0.0 < n as real / total as real <= 1.0
  {
  }

  lemma WinnerIsPlurality(votes: seq<string>, i: nat)
    requires i < |Counter(votes)|
    requires forall k | 0 <= k < |Counter(votes)| :: Counter(votes)[k].1 <= Counter(votes)[i].1
    requires forall k | 0 <= k < i :: Counter(votes)[k].1 < Counter(votes)[i].1
    ensures IsPluralityWinner(votes, Distinct(votes)[i])
  {
    var w := Distinct(votes)[i];
    assert w in Distinct(votes);
    forall x | x in votes
      ensures Occurrences(votes, x) <= Occurrences(votes, w)
      ensures Occurrences(votes, x) == Occurrences(votes, w) ==> FirstIndex(votes, w) <= FirstIndex(votes, x)
    {
      WinnerBeats(votes, i, x);
    }
  }

  /** The entry with the first largest count beats every voted token: no
      token has more votes, and one with as many was seen later. */
  lemma WinnerBeats(votes: seq<string>, i: nat, x: string)
    requires i < |Counter(votes)|
    requires forall k | 0 <= k < |Counter(votes)| :: Counter(votes)[k].1 <= Counter(votes)[i].1
    requires forall k | 0 <= k < i :: Counter(votes)[k].1 < Counter(votes)[i].1
    requires x in votes
    ensures var w := Distinct(votes)[i];
      && Occurrences(votes, x) <= Occurrences(votes, w)
      && (Occurrences(votes, x) == Occurrences(votes, w) ==> FirstIndex(votes, w) <= FirstIndex(votes, x))
  {
    var d := Distinct(votes);
    var t := Counter(votes);
    assert x in d;
    var k :| 0 <= k < |d| && d[k] == x;
    assert t[k] == (x, Occurrences(votes, x));
    assert t[i] == (d[i], Occurrences(votes, d[i]));
    if i < k {
      DistinctFirstSeen(votes, i, k);
    } else if k < i {
      assert t[k].1 < t[i].1;
    }
  }

  // ---------------------------------------------------------------------------
  // The endpoint

  /** `MAGIResponse`. */
  datatype MagiResponse = MagiResponse(
    raceId: int,
    results: seq<AIResult>,
    consensus: Option<string>,
    consensusRate: real,
    voteDetail: Tally,
    activeCount: nat)

  /** The endpoint's answer: a response, or the HTTP 404 it raises. */
  datatype AnalyzeOutcome = Responded(response: MagiResponse) | NotFound(detail: string)

  /** The `asyncio.gather` fan-out, run as a sequential map over the four
      slots in their fixed order. */
  function FanOut(config: MagiConfig, oracle: Provider -> CallOutcome): (results: seq<AIResult>)
    ensures |results| == |Providers|
    ensures forall i | 0 <= i < |Providers| ::
              results[i] == CallAiService(Providers[i], ConfigFor(config, Providers[i]), oracle(Providers[i]))
  {
    seq(|Providers|, i requires 0 <= i < |Providers| =>
      CallAiService(Providers[i], ConfigFor(config, Providers[i]), oracle(Providers[i])))
  }

  /** `sum(1 for r in results if r.status == "success")`. */
  function CountSuccesses(results: seq<AIResult>): (n: nat)
    ensures n <= |results|
  {
    if results == [] then 0
    else CountSuccesses(results[..|results| - 1]) + (if results[|results| - 1].status == Success then 1 else 0)
  }

  /** `magi_analyze`: 404 when the race or its entries are missing; otherwise
      every slot is consulted (there is no minimum number of providers) and
      the consensus of the four results is returned. */
  function MagiAnalyze(raceId: int, raceFound: bool, entryCount: nat,
                       config: MagiConfig, oracle: Provider -> CallOutcome): (r: AnalyzeOutcome)
    ensures !raceFound ==> r == NotFound("Race not found")
    ensures raceFound && entryCount == 0 ==> r == NotFound("No entries found")
    ensures raceFound && entryCount > 0 ==> r.Responded?
    ensures r.Responded? ==>
              var resp := r.response;
              var c := CalculateConsensus(resp.results);
              && resp.raceId == raceId
              && resp.results == FanOut(config, oracle)
              && resp.consensus == c.winner
              && resp.consensusRate == c.rate
              && resp.voteDetail == c.voteDetail
              && resp.activeCount == CountSuccesses(resp.results)
  {
    if !raceFound then NotFound("Race not found")
    else if entryCount == 0 then NotFound("No entries found")
    else
      var results := FanOut(config, oracle);
      var c := CalculateConsensus(results);
      Responded(MagiResponse(raceId, results, c.winner, c.rate, c.voteDetail, CountSuccesses(results)))
  }

  lemma {:induction false} VotesNeedSuccess(results: seq<AIResult>)
    ensures |Votes(results)| <= CountSuccesses(results)
  {
    if results != [] {
      VotesNeedSuccess(results[..|results| - 1]);
    }
  }

  /** Counting: the vote counts sum to the number of counted predictions,
      which is at most `active_count`, which is at most four. A slot that is
      disabled, errored, or succeeded without a prediction casts no vote. */
  lemma VoteAccounting(raceId: int, entryCount: nat, config: MagiConfig, oracle: Provider -> CallOutcome)
    requires entryCount > 0
    ensures var r := MagiAnalyze(raceId, true, entryCount, config, oracle).response;
      && SumCounts(r.voteDetail) == |Votes(r.results)|
      && |Votes(r.results)| <= r.activeCount <= 4
  {
    var r := MagiAnalyze(raceId, true, entryCount, config, oracle).response;
    VotesNeedSuccess(r.results);
    CounterSum(Votes(r.results));
  }

  /** A disabled slot makes no call: changing what its provider would answer
      changes nothing in the response. */
  lemma DisabledSlotIsNotCalled(raceId: int, entryCount: nat, config: MagiConfig,
                                oracle: Provider -> CallOutcome, oracle': Provider -> CallOutcome)
    requires forall p :: Usable(ConfigFor(config, p)) ==> oracle(p) == oracle'(p)
    ensures MagiAnalyze(raceId, true, entryCount, config, oracle)
         == MagiAnalyze(raceId, true, entryCount, config, oracle')
  {
    assert FanOut(config, oracle) == FanOut(config, oracle');
  }

  // ---------------------------------------------------------------------------
  // Two concrete rounds

  function Voted(p: Provider, token: string): AIResult {
    AIResult(MagiName(p), p, "", Success, Some(token), Some(token), None, None, Some(0))
  }

  function Failed(p: Provider): AIResult {
    AIResult(MagiName(p), p, "", Error, None, None, None, Some("timeout"), None)
  }

  lemma VotesSnoc(rs: seq<AIResult>, r: AIResult)
    ensures Votes(rs + [r]) == Votes(rs) + (if CastsVote(r) then [r.prediction.value] else [])
  {
    assert (rs + [r])[..|rs|] == rs;
  }

  /** The four results of a round, in provider order. */
  function Round4(r1: AIResult, r2: AIResult, r3: AIResult, r4: AIResult): seq<AIResult> {
    [r1, r2, r3, r4]
  }

  lemma VotesOfRound(r1: AIResult, r2: AIResult, r3: AIResult, r4: AIResult)
    ensures Votes(Round4(r1, r2, r3, r4))
         == (if CastsVote(r1) then [r1.prediction.value] else [])
          + (if CastsVote(r2) then [r2.prediction.value] else [])
          + (if CastsVote(r3) then [r3.prediction.value] else [])
          + (if CastsVote(r4) then [r4.prediction.value] else [])
  {
    var s0: seq<AIResult> := [];
    var s1 := s0 + [r1];
    var s2 := s1 + [r2];
    var s3 := s2 + [r3];
    var s4 := s3 + [r4];
    VotesSnoc(s0, r1);
    VotesSnoc(s1, r2);
    VotesSnoc(s2, r3);
    VotesSnoc(s3, r4);
    assert Votes(s0) == [];
    assert s4 == Round4(r1, r2, r3, r4);
  }

  lemma CountTwoAgainstOne(a: string, b: string)
    requires a != b
    ensures Counter([a, a, b]) == [(a, 2), (b, 1)]
    ensures MostCommon([(a, 2), (b, 1)]) == 0
  {
    TopOfTwo((a, 2), (b, 1));
    assert [a, a, b][..2] == [a, a] && [a, a][..1] == [a] && [a][..0] == [];
    assert Counter([a]) == [(a, 1)];
    assert KeyIndex([(a, 1)], a) == Some(0);
    assert Counter([a, a]) == [(a, 2)];
    assert KeyIndex([(a, 2)], b) == None;
    assert Counter([a, a, b]) == [(a, 2), (b, 1)];
  }

  lemma CountTie(a: string, b: string)
    requires a != b
    ensures Counter([a, b]) == [(a, 1), (b, 1)]
    ensures MostCommon([(a, 1), (b, 1)]) == 0
  {
    TopOfTwo((a, 1), (b, 1));
    assert [a, b][..1] == [a] && [a][..0] == [];
    assert Counter([a]) == [(a, 1)];
    assert KeyIndex([(a, 1)], b) == None;
  }

  /** Two providers agree on `a`, one says `b`, one fails: `a` wins with two
      of three counted predictions. */
  lemma TwoAgainstOne(a: string, b: string)
    requires a != "" && b != "" && a != b
    ensures var c := CalculateConsensus(Round4(Voted(Claude, a), Voted(OpenAI, a), Voted(Gemini, b), Failed(Grok)));
      && c.winner == Some(a)
      && c.rate == 2.0 / 3.0
      && c.voteDetail == [(a, 2), (b, 1)]
  {
    var rs := Round4(Voted(Claude, a), Voted(OpenAI, a), Voted(Gemini, b), Failed(Grok));
    VotesTwoAgainstOne(a, b);
    CountTwoAgainstOne(a, b);
    ConsensusFromCount(rs, [a, a, b], [(a, 2), (b, 1)], 0, 2, 3);
  }

  lemma VotesTwoAgainstOne(a: string, b: string)
    requires a != "" && b != ""
    ensures Votes(Round4(Voted(Claude, a), Voted(OpenAI, a), Voted(Gemini, b), Failed(Grok))) == [a, a, b]
  {
    VotesOfRound(Voted(Claude, a), Voted(OpenAI, a), Voted(Gemini, b), Failed(Grok));
  }

  /** Of two tally entries, the first is the most common unless the second
      has strictly more votes. */
  lemma TopOfTwo(e1: (string, nat), e2: (string, nat))
    requires e1.1 >= e2.1
    ensures MostCommon([e1, e2]) == 0
  {
    assert [e1, e2][..1] == [e1];
  }

  /** One vote each for `a` and `b`, one failure, one disabled slot: the
      tie goes to `a`, the token of the earlier provider, with half of the
      two counted predictions. */
  lemma TieGoesToFirstSeen(a: string, b: string)
    requires a != "" && b != "" && a != b
    ensures var c := CalculateConsensus(Round4(Voted(Claude, a), Voted(OpenAI, b), Failed(Gemini), DisabledResult(Grok)));
      && c.winner == Some(a)
      && c.rate == 1.0 / 2.0
      && c.voteDetail == [(a, 1), (b, 1)]
  {
    var rs := Round4(Voted(Claude, a), Voted(OpenAI, b), Failed(Gemini), DisabledResult(Grok));
    VotesTie(a, b);
    CountTie(a, b);
    ConsensusFromCount(rs, [a, b], [(a, 1), (b, 1)], 0, 1, 2);
  }

  lemma VotesTie(a: string, b: string)
    requires a != "" && b != ""
    ensures Votes(Round4(Voted(Claude, a), Voted(OpenAI, b), Failed(Gemini), DisabledResult(Grok))) == [a, b]
  {
    VotesOfRound(Voted(Claude, a), Voted(OpenAI, b), Failed(Gemini), DisabledResult(Grok));
  }

  /** With the votes, their count and its first largest entry known, the
      consensus is that entry's token and share. */
  lemma ConsensusFromCount(results: seq<AIResult>, votes: seq<string>, t: Tally, i: nat, count: nat, n: nat)
    requires Votes(results) == votes && votes != [] && |votes| == n
    requires Counter(votes) == t && |t| > 0 && MostCommon(t) == i && t[i].1 == count
    ensures var c := CalculateConsensus(results);
      c.winner == Some(t[i].0) && c.voteDetail == t && c.rate == count as real / n as real
  {
  }
}
