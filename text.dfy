/** Characters, strings and numbers shared by the whole model: the optional
    value Python writes as `None`, the character classes of Python's `re` and
    `int()`, substring search, decimal printing and parsing, and `round`. */
module Text {

  datatype Option<+T> = None | Some(value: T)

  /** `\d`, restricted to the ASCII digits. */
  predicate IsDigit(c: char) { '0' <= c <= '9' }

  /** The characters `str.isspace()` accepts, which is also what `\s` matches
      in a `str` pattern and what `int()` and `str.strip()` discard. */
  predicate IsSpace(c: char) {
    || c == ' ' || '\t' <= c <= '\r' || '\U{1C}' <= c <= '\U{1F}'
    || c == '\U{85}' || c == '\U{A0}' || c == '\U{1680}'
    || '\U{2000}' <= c <= '\U{200A}' || c == '\U{2028}' || c == '\U{2029}'
    || c == '\U{202F}' || c == '\U{205F}' || c == '\U{3000}'
  }

  predicate AllDigits(s: string) { forall k | 0 <= k < |s| :: IsDigit(s[k]) }

  /** `p` occurs in `s` starting at index `i`. */
  predicate OccursAt(s: string, p: string, i: int) {
    0 <= i && i + |p| <= |s| && s[i..i + |p|] == p
  }

  /** Python's `p in s` for strings. */
  predicate Contains(s: string, p: string) {
    exists i | 0 <= i <= |s| - |p| :: OccursAt(s, p, i)
  }

  /** A trifecta token `d-d-d` starts at index `i` of `s`. */
  predicate TrifectaAt(s: string, i: int) {
    0 <= i && i + 5 <= |s|
    && IsDigit(s[i]) && s[i + 1] == '-' && IsDigit(s[i + 2]) && s[i + 3] == '-' && IsDigit(s[i + 4])
  }

  /** `s` is exactly one trifecta token, five characters long. */
  predicate IsTrifecta(s: string) { |s| == 5 && TrifectaAt(s, 0) }

  /** `s` contains a trifecta token somewhere. */
  predicate HasTrifecta(s: string) { exists i | 0 <= i <= |s| :: TrifectaAt(s, i) }

  /** The first index at or after `from` that holds `c`. */
  function IndexOf(s: string, c: char, from: nat): (r: Option<nat>)
    decreases |s| - from
    ensures r.Some? ==> from <= r.value < |s| && s[r.value] == c
    ensures r.Some? ==> forall k | from <= k < r.value :: s[k] != c
    ensures r.None? ==> forall k | from <= k < |s| :: s[k] != c
  {
    if from >= |s| then None
    else if s[from] == c then Some(from)
    else IndexOf(s, c, from + 1)
  }

  /** The end of the run of whitespace that starts at `from` (greedy `\s*`). */
  function SkipSpaces(s: string, from: nat): (r: nat)
    requires from <= |s|
    decreases |s| - from
    ensures from <= r <= |s|
    ensures forall k | from <= k < r :: IsSpace(s[k])
    ensures r < |s| ==> !IsSpace(s[r])
  {
    if from == |s| || !IsSpace(s[from]) then from else SkipSpaces(s, from + 1)
  }

  /** `str.strip()`: drop leading and trailing whitespace. The result is the
      slice of `s` left once the whitespace on either side is cut away; it
      neither starts nor ends with whitespace, so no more could be cut. */
  function Strip(s: string): (r: string)
    ensures |r| <= |s|
    ensures r != [] ==> !IsSpace(r[0]) && !IsSpace(r[|r| - 1])
    ensures exists i, j | 0 <= i <= j <= |s| ::
      && r == s[i..j]
      && (forall k | 0 <= k < i :: IsSpace(s[k]))
      && (forall k | j <= k < |s| :: IsSpace(s[k]))
  {
    StripIsSlice(s);
    StripEnd(StripStart(s))
  }

  lemma StripIsSlice(s: string)
    ensures var r := StripEnd(StripStart(s));
      exists i, j | 0 <= i <= j <= |s| ::
        && r == s[i..j]
        && (forall k | 0 <= k < i :: IsSpace(s[k]))
        && (forall k | j <= k < |s| :: IsSpace(s[k]))
  {
    var front := StripStart(s);
    var r := StripEnd(front);
    var i := |s| - |front|;
    var j := i + |r|;
    SliceOfSuffix(s, i, |r|);
    forall k | j <= k < |s| ensures IsSpace(s[k]) {
      SuffixIndex(s, i, k);
    }
  }

  lemma SliceOfSuffix<T>(s: seq<T>, i: nat, m: nat)
    requires i + m <= |s|
    ensures s[i..][..m] == s[i..i + m]
  {
  }

  lemma SuffixIndex<T>(s: seq<T>, i: nat, k: nat)
    requires i <= k < |s|
    ensures s[i..][k - i] == s[k]
  {
  }

  /** A non-empty sequence is its front followed by its last element. */
  lemma SnocSplit<T>(s: seq<T>)
    requires s != []
    ensures s[..|s| - 1] + [s[|s| - 1]] == s
  {
  }

  function StripStart(s: string): (r: string)
    ensures |r| <= |s|
    ensures r != [] ==> !IsSpace(r[0]) && r == s[|s| - |r|..]
    ensures forall k | 0 <= k < |s| - |r| :: IsSpace(s[k])
  {
    if s != [] && IsSpace(s[0]) then StripStart(s[1..]) else s
  }

  function StripEnd(s: string): (r: string)
    ensures |r| <= |s| && r == s[..|r|]
    ensures r != [] ==> !IsSpace(r[|r| - 1])
    ensures forall k | |r| <= k < |s| :: IsSpace(s[k])
  {
    if s != [] && IsSpace(s[|s| - 1]) then StripEnd(s[..|s| - 1]) else s
  }

  /** Concatenation regroups freely. */
  lemma ConcatAssociative<T>(a: seq<T>, b: seq<T>, c: seq<T>)
    ensures a + (b + c) == (a + b) + c
  {
  }

  /** A prefix one element longer is the prefix with that element added. */
  lemma PrefixExtend<T>(s: seq<T>, i: nat)
    requires i < |s|
    ensures s[..i + 1] == s[..i] + [s[i]]
  {
  }

  /** `s` with every occurrence of `c` removed (`s.replace(c, "")`): the
      other characters, each as often as in `s` (RemoveCounts), in their
      order in `s` (RemoveAbsent and RemoveAppend). */
  function RemoveChar(s: string, c: char): (r: string)
    ensures c !in r
    ensures forall x :: x in r <==> x in s && x != c
    ensures |r| <= |s|
  {
    if s == [] then []
    else RemoveChar(s[..|s| - 1], c) + (if s[|s| - 1] == c then [] else [s[|s| - 1]])
  }

  /** Every character other than `c` is kept exactly as often as it occurs. */
  lemma {:induction false} RemoveCounts(s: string, c: char)
    ensures multiset(RemoveChar(s, c)) == multiset(s)[c := 0]
  {
    if s != [] {
      var init, last := s[..|s| - 1], s[|s| - 1];
      RemoveCounts(init, c);
      SnocSplit(s);
      assert RemoveChar(s, c) == RemoveChar(init, c) + (if last == c then [] else [last]);
    }
  }

  /** Text without `c` is left as it is. */
  lemma {:induction false} RemoveAbsent(s: string, c: char)
    requires c !in s
    ensures RemoveChar(s, c) == s
  {
    if s != [] {
      var init, last := s[..|s| - 1], s[|s| - 1];
      assert c !in init by {
        assert forall k | 0 <= k < |init| :: init[k] == s[k];
      }
      RemoveAbsent(init, c);
      assert RemoveChar(s, c) == RemoveChar(init, c) + [last];
      SnocSplit(s);
    }
  }

  /** Removal works piece by piece, keeping the pieces in order. */
  lemma {:induction false} RemoveAppend(a: string, b: string, c: char)
    ensures RemoveChar(a + b, c) == RemoveChar(a, c) + RemoveChar(b, c)
  {
    if b == [] {
      assert a + b == a;
    } else {
      var init, last := b[..|b| - 1], b[|b| - 1];
      var kept := if last == c then [] else [last];
      RemoveAppend(a, init, c);
      assert (a + b)[..|a + b| - 1] == a + init;
      assert (a + b)[|a + b| - 1] == last;
      assert RemoveChar(a + b, c) == RemoveChar(a + init, c) + kept;
      assert RemoveChar(b, c) == RemoveChar(init, c) + kept;
      ConcatAssociative(RemoveChar(a, c), RemoveChar(init, c), kept);
    }
  }

  function DigitChar(d: nat): (c: char)
    requires d < 10
    ensures IsDigit(c) && DigitValue(c) == d
  {
    (48 + d) as char
  }

  function DigitValue(c: char): nat
    requires IsDigit(c)
  {
    (c as int - 48) as nat
  }

  /** The number an all-digit string denotes in decimal. */
  function DigitsValue(s: string): nat
    requires AllDigits(s)
  {
    if s == [] then 0 else DigitsValue(s[..|s| - 1]) * 10 + DigitValue(s[|s| - 1])
  }

  /** Python's `str(n)` for a natural number. */
  function NatToString(n: nat): (s: string)
    ensures s != [] && AllDigits(s)
    ensures n < 10 ==> s == [DigitChar(n)]
  {
    if n < 10 then [DigitChar(n)] else NatToString(n / 10) + [DigitChar(n % 10)]
  }

  /** Python's `str(n)` for an integer. */
  function IntToString(n: int): (s: string)
    ensures s != []
  {
    if n < 0 then "-" + NatToString(-n) else NatToString(n)
  }

  lemma {:induction false} NatToStringRoundTrip(n: nat)
    ensures DigitsValue(NatToString(n)) == n
  {
    if n >= 10 {
      NatToStringRoundTrip(n / 10);
      var s := NatToString(n);
      assert s[..|s| - 1] == NatToString(n / 10);
    }
  }

  /** Python's `int(s)` for a string: surrounding whitespace is ignored, an
      optional sign, then one or more ASCII digits; anything else is a
      `ValueError`, which is `None` here. */
  function ParseInt(s: string): (r: Option<int>)
    ensures r.Some? ==> Strip(s) != []
  {
    var t := Strip(s);
    if t == [] then None
    else if t[0] == '+' || t[0] == '-' then
      var body := t[1..];
      if body != [] && AllDigits(body) then
        var magnitude: int := DigitsValue(body);
        Some(if t[0] == '-' then -magnitude else magnitude)
      else None
    else if AllDigits(t) then Some(DigitsValue(t))
    else None
  }

  lemma NoSpaceInDigits(s: string)
    requires AllDigits(s)
    ensures forall k | 0 <= k < |s| :: !IsSpace(s[k])
  {
  }

  lemma StripOfUnspaced(s: string)
    requires s != [] && !IsSpace(s[0]) && !IsSpace(s[|s| - 1])
    ensures Strip(s) == s
  {
  }

  /** `int(str(n)) == n`: printing then parsing an integer gives it back. */
  lemma IntRoundTrip(n: int)
    ensures ParseInt(IntToString(n)) == Some(n)
  {
    var s := IntToString(n);
    var digits := NatToString(if n < 0 then -n else n);
    NatToStringRoundTrip(if n < 0 then -n else n);
    NoSpaceInDigits(digits);
    if n < 0 {
      assert s == "-" + digits;
      assert s[|s| - 1] == digits[|digits| - 1];
      StripOfUnspaced(s);
      assert s[1..] == digits;
    } else {
      assert s == digits;
      StripOfUnspaced(s);
    }
  }

  /** `sep.join(parts)`. */
  function Join(parts: seq<string>, sep: string): (r: string)
    ensures parts == [] ==> r == []
    ensures |parts| == 1 ==> r == parts[0]
  {
    if parts == [] then []
    else if |parts| == 1 then parts[0]
    else Join(parts[..|parts| - 1], sep) + sep + parts[|parts| - 1]
  }

  function Min(a: int, b: int): int { if a <= b then a else b }

  function MinReal(a: real, b: real): real { if a <= b then a else b }

  function Pow10(n: nat): (r: nat)
    ensures r >= 1
  {
    if n == 0 then 1 else 10 * Pow10(n - 1)
  }

  /** Python's `round(x, n)`, on exact reals: the nearest multiple of 10^-n,
      halves rounded up. The model relies only on the error bound below, on
      monotonicity and on exact values staying put. */
  function Round(x: real, n: nat): real {
    RoundScaled(x, Pow10(n) as real)
  }

  /** `Round(x, n)` lies within half a unit of the n-th decimal of `x`. */
  lemma RoundWithinHalfUnit(x: real, n: nat)
    ensures var r := Round(x, n);
      x - 1.0 / (2.0 * Pow10(n) as real) < r <= x + 1.0 / (2.0 * Pow10(n) as real)
  {
    var p := Pow10(n) as real;
    DivBounds(x, p, (x * p + 0.5).Floor);
  }

  /** The nearest multiple of 1/p, halves rounded up. */
  function RoundScaled(x: real, p: real): real
    requires p >= 1.0
  {
    (x * p + 0.5).Floor as real / p
  }

  lemma DivBounds(x: real, p: real, f: int)
    requires p >= 1.0
    requires x * p + 0.5 - 1.0 < f as real <= x * p + 0.5
    ensures x - 1.0 / (2.0 * p) < f as real / p <= x + 1.0 / (2.0 * p)
  {
    assert (x * p + 0.5) / p == x + 1.0 / (2.0 * p);
    assert (x * p - 0.5) / p == x - 1.0 / (2.0 * p);
    DivStrictlyMonotone(x * p - 0.5, f as real, p);
    DivMonotone(f as real, x * p + 0.5, p);
  }

  lemma DivMonotone(a: real, b: real, p: real)
    requires p > 0.0 && a <= b
    ensures a / p <= b / p
  {
  }

  lemma DivStrictlyMonotone(a: real, b: real, p: real)
    requires p > 0.0 && a < b
    ensures a / p < b / p
  {
  }

  lemma MulMonotone(a: real, b: real, p: real)
    requires p >= 0.0 && a <= b
    ensures a * p <= b * p
  {
  }

  lemma FloorMonotone(a: real, b: real)
    requires a <= b
    ensures a.Floor <= b.Floor
  {
    assert a.Floor as real <= a <= b < b.Floor as real + 1.0;
  }

  lemma {:induction false} RoundMonotone(x: real, y: real, n: nat)
    requires x <= y
    ensures Round(x, n) <= Round(y, n)
  {
    var p := Pow10(n) as real;
    assert Round(x, n) == RoundScaled(x, p);
    assert Round(y, n) == RoundScaled(y, p);
    MulMonotone(x, y, p);
    FloorMonotone(x * p + 0.5, y * p + 0.5);
    DivMonotone((x * p + 0.5).Floor as real, (y * p + 0.5).Floor as real, p);
    RoundScaledDef(x, p);
    RoundScaledDef(y, p);
  }

  lemma RoundScaledDef(x: real, p: real)
    requires p >= 1.0
    ensures RoundScaled(x, p) == (x * p + 0.5).Floor as real / p
  {
  }

  /** A multiple of 10^-n is left unchanged by `Round(·, n)`. */
  lemma RoundExact(k: int, n: nat)
    ensures Round(k as real / Pow10(n) as real, n) == k as real / Pow10(n) as real
  {
    var p := Pow10(n) as real;
    var x := k as real / p;
    assert x * p == k as real;
    ScaledOfInteger(x, p, k);
    assert Round(x, n) == RoundScaled(x, p);
  }

  lemma ScaledOfInteger(x: real, p: real, k: int)
    requires p >= 1.0 && x * p == k as real
    ensures RoundScaled(x, p) == k as real / p
  {
    assert (k as real + 0.5).Floor == k;
  }

  lemma RoundZero(n: nat)
    ensures Round(0.0, n) == 0.0
  {
    var p := Pow10(n) as real;
    ScaledOfInteger(0.0, p, 0);
    assert 0.0 / p == 0.0;
  }

  lemma RoundOne(n: nat)
    ensures Round(1.0, n) == 1.0
  {
    var p := Pow10(n) as real;
    assert Round(1.0, n) == RoundScaled(1.0, p);
    ScaledOfInteger(1.0, p, Pow10(n));
    SelfQuotient(p);
  }

  lemma SelfQuotient(p: real)
    requires p >= 1.0
    ensures p / p == 1.0
  {
  }

  /** Python's `sum` over reals. */
  function Sum(s: seq<real>): real {
    if s == [] then 0.0 else Sum(s[..|s| - 1]) + s[|s| - 1]
  }

  predicate NonNegative(s: seq<real>) {
    forall k | 0 <= k < |s| :: s[k] >= 0.0
  }

  lemma {:induction false} SumNonNegative(s: seq<real>)
    requires NonNegative(s)
    ensures Sum(s) >= 0.0
  {
    if s != [] {
      SumNonNegative(s[..|s| - 1]);
    }
  }
}
