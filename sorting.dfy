/** The stable descending sort the core relies on in three places: Python's
    `list.sort(key=k, reverse=True)` and JavaScript's `Array.prototype.sort`
    with a `(a, b) => key(b) - key(a)` comparator. Both are library calls in
    the source, so they are modelled as one function over values. */
module Sorting {
  import opened Text

  /** Keys never increase from left to right. */
  ghost predicate NonIncreasing<T>(s: seq<T>, key: T -> real) {
    forall i, j | 0 <= i < j < |s| :: key(s[i]) >= key(s[j])
  }

  /** The elements of `s` whose key is `v`, in their order in `s`. */
  function WithKey<T>(s: seq<T>, key: T -> real, v: real): (r: seq<T>)
    ensures |r| <= |s|
  {
    if s == [] then []
    else WithKey(s[..|s| - 1], key, v) + (if key(s[|s| - 1]) == v then [s[|s| - 1]] else [])
  }

  /** Neighbouring keys never increase. */
  ghost predicate NonIncreasingAdjacent<T>(s: seq<T>, key: T -> real) {
    forall i | 0 <= i < |s| - 1 :: key(s[i]) >= key(s[i + 1])
  }

  lemma {:induction false} AdjacentToPairwise<T>(s: seq<T>, key: T -> real)
    requires NonIncreasingAdjacent(s, key)
    ensures NonIncreasing(s, key)
  {
    if |s| > 1 {
      var tail := s[1..];
      AdjacentToPairwise(tail, key);
      forall i, j | 0 <= i < j < |s| ensures key(s[i]) >= key(s[j]) {
        assert s[j] == tail[j - 1];
        if i > 0 {
          assert s[i] == tail[i - 1];
        } else if j > 1 {
          assert s[1] == tail[0];
        }
      }
    }
  }

  /** Insert `x` into a descending `s` after every element whose key is at
      least `key(x)`: a later element never overtakes an equal earlier one. */
  function Insert<T>(x: T, s: seq<T>, key: T -> real): (r: seq<T>)
    ensures |r| == |s| + 1
    ensures r[0] == x || (s != [] && r[0] == s[0])
  {
    if s == [] then [x]
    else if key(s[0]) >= key(x) then [s[0]] + Insert(x, s[1..], key)
    else [x] + s
  }

  /** Inserting adds exactly the one element. */
  lemma {:induction false} InsertPermutes<T>(x: T, s: seq<T>, key: T -> real)
    ensures multiset(Insert(x, s, key)) == multiset(s) + multiset{x}
  {
    if s != [] && key(s[0]) >= key(x) {
      InsertPermutes(x, s[1..], key);
      assert s == [s[0]] + s[1..];
    }
  }

  /** Inserting into a list sorted from highest to lowest key keeps it sorted. */
  lemma {:induction false} InsertKeepsOrder<T>(x: T, s: seq<T>, key: T -> real)
    requires NonIncreasingAdjacent(s, key)
    ensures NonIncreasingAdjacent(Insert(x, s, key), key)
  {
    if s == [] {
    } else if key(s[0]) >= key(x) {
      AdjacentTail(s, key);
      InsertKeepsOrder(x, s[1..], key);
      AdjacentCons(s[0], Insert(x, s[1..], key), key);
    } else {
      AdjacentCons(x, s, key);
    }
  }

  lemma AdjacentTail<T>(s: seq<T>, key: T -> real)
    requires s != [] && NonIncreasingAdjacent(s, key)
    ensures NonIncreasingAdjacent(s[1..], key)
  {
    var tail := s[1..];
    forall i | 0 <= i < |tail| - 1 ensures key(tail[i]) >= key(tail[i + 1]) {
      assert tail[i] == s[i + 1] && tail[i + 1] == s[i + 2];
    }
  }

  lemma AdjacentCons<T>(h: T, rest: seq<T>, key: T -> real)
    requires NonIncreasingAdjacent(rest, key)
    requires rest != [] ==> key(h) >= key(rest[0])
    ensures NonIncreasingAdjacent([h] + rest, key)
  {
    var r := [h] + rest;
    forall i | 0 <= i < |r| - 1 ensures key(r[i]) >= key(r[i + 1]) {
      if i > 0 {
        assert r[i] == rest[i - 1] && r[i + 1] == rest[i];
      }
    }
  }

  /** The stable descending sort: elements are taken in input order and each
      is inserted behind the equal ones already placed. */
  function SortDesc<T>(s: seq<T>, key: T -> real): (r: seq<T>)
    ensures |r| == |s|
    ensures multiset(r) == multiset(s)
    ensures NonIncreasingAdjacent(r, key)
    ensures NonIncreasing(r, key)
  {
    if s == [] then []
    else
      assert s == s[..|s| - 1] + [s[|s| - 1]];
      var r := Insert(s[|s| - 1], SortDesc(s[..|s| - 1], key), key);
      InsertPermutes(s[|s| - 1], SortDesc(s[..|s| - 1], key), key);
      InsertKeepsOrder(s[|s| - 1], SortDesc(s[..|s| - 1], key), key);
      AdjacentToPairwise(r, key);
      r
  }

  lemma {:induction false} WithKeyAppend<T>(a: seq<T>, b: seq<T>, key: T -> real, v: real)
    ensures WithKey(a + b, key, v) == WithKey(a, key, v) + WithKey(b, key, v)
  {
    if b != [] {
      var b' := b[..|b| - 1];
      assert (a + b)[..|a + b| - 1] == a + b';
      WithKeyAppend(a, b', key, v);
    } else {
      assert a + b == a;
    }
  }

  lemma WithKeySingle<T>(x: T, key: T -> real, v: real)
    ensures WithKey([x], key, v) == if key(x) == v then [x] else []
  {
    assert [x][..0] == [];
  }

  /** No element of a sequence whose keys all differ from `v` is kept. */
  lemma {:induction false} WithKeyNone<T>(s: seq<T>, key: T -> real, v: real)
    requires forall k | 0 <= k < |s| :: key(s[k]) != v
    ensures WithKey(s, key, v) == []
  {
    if s != [] {
      WithKeyNone(s[..|s| - 1], key, v);
    }
  }

  lemma {:induction false} InsertWithKey<T>(x: T, s: seq<T>, key: T -> real, v: real)
    requires NonIncreasing(s, key)
    ensures WithKey(Insert(x, s, key), key, v)
         == WithKey(s, key, v) + (if key(x) == v then [x] else [])
  {
    if s == [] {
      WithKeySingle(x, key, v);
    } else if key(s[0]) >= key(x) {
      TailNonIncreasing(s, key);
      InsertWithKey(x, s[1..], key, v);
      WithKeyBehindHead(x, s, key, v);
    } else {
      WithKeyInFront(x, s, key, v);
    }
  }

  /** The step of `InsertWithKey` where `x` goes behind the head of `s`. */
  lemma WithKeyBehindHead<T>(x: T, s: seq<T>, key: T -> real, v: real)
    requires s != [] && key(s[0]) >= key(x)
    requires WithKey(Insert(x, s[1..], key), key, v)
          == WithKey(s[1..], key, v) + (if key(x) == v then [x] else [])
    ensures WithKey(Insert(x, s, key), key, v)
         == WithKey(s, key, v) + (if key(x) == v then [x] else [])
  {
    var tail := s[1..];
    var ins := Insert(x, tail, key);
    var extra: seq<T> := if key(x) == v then [x] else [];
    var head := WithKey([s[0]], key, v);
    InsertBehindHead(x, s, key);
    WithKeyAppend([s[0]], ins, key, v);
    WithKeyAppend([s[0]], tail, key, v);
    assert [s[0]] + tail == s;
    assert WithKey(Insert(x, s, key), key, v) == head + (WithKey(tail, key, v) + extra);
    assert WithKey(s, key, v) == head + WithKey(tail, key, v);
    ConcatAssociative(head, WithKey(tail, key, v), extra);
  }

  /** The step of `InsertWithKey` where `x` goes in front of `s`: no
      element of `s` can share its key. */
  lemma WithKeyInFront<T>(x: T, s: seq<T>, key: T -> real, v: real)
    requires NonIncreasing(s, key)
    requires s != [] && key(s[0]) < key(x)
    ensures WithKey(Insert(x, s, key), key, v)
         == WithKey(s, key, v) + (if key(x) == v then [x] else [])
  {
    InsertInFront(x, s, key);
    WithKeyAppend([x], s, key, v);
    WithKeySingle(x, key, v);
    if key(x) == v {
      forall k | 0 <= k < |s| ensures key(s[k]) != v {
        assert key(s[k]) <= key(s[0]);
      }
      WithKeyNone(s, key, v);
    }
  }

  lemma TailNonIncreasing<T>(s: seq<T>, key: T -> real)
    requires s != [] && NonIncreasing(s, key)
    ensures NonIncreasing(s[1..], key)
  {
    var tail := s[1..];
    forall i, j | 0 <= i < j < |tail| ensures key(tail[i]) >= key(tail[j]) {
      assert tail[i] == s[i + 1] && tail[j] == s[j + 1];
    }
  }

  lemma InsertBehindHead<T>(x: T, s: seq<T>, key: T -> real)
    requires s != [] && key(s[0]) >= key(x)
    ensures Insert(x, s, key) == [s[0]] + Insert(x, s[1..], key)
  {
  }

  lemma InsertInFront<T>(x: T, s: seq<T>, key: T -> real)
    requires s != [] && key(s[0]) < key(x)
    ensures Insert(x, s, key) == [x] + s
  {
  }

  /** Stability: for every key value, the elements carrying it appear in the
      sorted result in exactly their input order. */
  lemma {:induction false} SortDescStable<T>(s: seq<T>, key: T -> real, v: real)
    ensures WithKey(SortDesc(s, key), key, v) == WithKey(s, key, v)
  {
    if s != [] {
      var init := s[..|s| - 1];
      SortDescStable(init, key, v);
      InsertWithKey(s[|s| - 1], SortDesc(init, key), key, v);
    }
  }
}
