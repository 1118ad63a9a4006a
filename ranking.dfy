/**
 * The selection rules the engine applies to its ordered dictionaries of
 * scores: keep the entries above a threshold, stable sort by descending
 * score, keep a prefix, pick the first maximal entry, add up the scores.
 * A Python dictionary that preserves insertion order is modelled as a
 * sequence of entries in that order.
 */
module Ranking {

  /** A named score together with the payload the source stores beside it. */
  datatype Entry<T> = Entry(name: string, score: real, info: T)

  function Names<T(!new)>(s: seq<Entry<T>>): (r: seq<string>)
    ensures |r| == |s|
    ensures forall i :: 0 <= i < |s| ==> r[i] == s[i].name
  {
    seq(|s|, i requires 0 <= i < |s| => s[i].name)
  }

  /** The names of a concatenation are the names of its parts. */
  lemma NamesAppend<T(!new)>(a: seq<Entry<T>>, b: seq<Entry<T>>)
    ensures Names(a + b) == Names(a) + Names(b)
  {
  }

  function Min(a: int, b: int): int { if a <= b then a else b }

  /** The entries of `s` whose score is strictly above `threshold`, in their original order. */
  function Above<T(!new)>(s: seq<Entry<T>>, threshold: real): (r: seq<Entry<T>>)
    ensures |r| <= |s|
    ensures forall e :: e in r <==> e in s && e.score > threshold
  {
    if s == [] then []
    else
      var last := s[|s| - 1];
      assert s == s[..|s| - 1] + [last];
      Above(s[..|s| - 1], threshold) + (if last.score > threshold then [last] else [])
  }

  /** A prefix one element longer is the shorter prefix followed by that element. */
  lemma PrefixSnoc<T>(s: seq<T>, i: nat)
    requires i < |s|
    ensures s[..i + 1] == s[..i] + [s[i]]
  {
  }

  /** Filtering a sequence extended by one entry extends the filtered prefix by that entry when it qualifies. */
  lemma AboveSnoc<T(!new)>(s: seq<Entry<T>>, x: Entry<T>, threshold: real)
    ensures Above(s + [x], threshold) == Above(s, threshold) + (if x.score > threshold then [x] else [])
  {
    assert (s + [x])[..|s|] == s;
  }

  /** The entries of `s` whose score is exactly `x`, in their original order. */
  function WithScore<T(!new)>(s: seq<Entry<T>>, x: real): seq<Entry<T>>
  {
    if s == [] then [] else (if s[0].score == x then [s[0]] else []) + WithScore(s[1..], x)
  }

  lemma {:induction false} WithScoreAppend<T(!new)>(a: seq<Entry<T>>, b: seq<Entry<T>>, x: real)
    ensures WithScore(a + b, x) == WithScore(a, x) + WithScore(b, x)
  {
    if a != [] {
      assert (a + b)[0] == a[0];
      assert (a + b)[1..] == a[1..] + b;
      WithScoreAppend(a[1..], b, x);
      var head := if a[0].score == x then [a[0]] else [];
      assert WithScore(a + b, x) == head + WithScore(a[1..] + b, x);
      assert WithScore(a, x) == head + WithScore(a[1..], x);
    } else {
      assert a + b == b;
    }
  }

  lemma {:induction false} WithScorePrefix<T(!new)>(a: seq<Entry<T>>, b: seq<Entry<T>>, x: real)
    requires a <= b
    ensures WithScore(a, x) <= WithScore(b, x)
  {
    if a != [] {
      assert a[1..] <= b[1..];
      WithScorePrefix(a[1..], b[1..], x);
    }
  }

  /** Filtering at `threshold` keeps, for every score above it, exactly the entries with that score. */
  lemma {:induction false} AboveKeepsTies<T(!new)>(s: seq<Entry<T>>, threshold: real, x: real)
    requires x > threshold
    ensures WithScore(Above(s, threshold), x) == WithScore(s, x)
  {
    if s != [] {
      var init, last := s[..|s| - 1], s[|s| - 1];
      assert s == init + [last];
      AboveKeepsTies(init, threshold, x);
      WithScoreAppend(init, [last], x);
      WithScoreAppend(Above(init, threshold), if last.score > threshold then [last] else [], x);
    }
  }

  predicate NonIncreasing<T(!new)>(s: seq<Entry<T>>)
  {
    forall i, j :: 0 <= i < j < |s| ==> s[i].score >= s[j].score
  }

  /** Insert `e` before the first entry whose score it reaches, so that it precedes its ties. */
  function Insert<T(==,!new)>(e: Entry<T>, s: seq<Entry<T>>): (r: seq<Entry<T>>)
    ensures multiset(r) == multiset(s) + multiset{e}
  {
    if s == [] || e.score >= s[0].score then [e] + s
    else
      assert s == [s[0]] + s[1..];
      [s[0]] + Insert(e, s[1..])
  }

  lemma {:induction false} InsertBounded<T(!new)>(e: Entry<T>, s: seq<Entry<T>>, b: real)
    requires forall i :: 0 <= i < |s| ==> s[i].score <= b
    requires e.score <= b
    ensures forall i :: 0 <= i < |Insert(e, s)| ==> Insert(e, s)[i].score <= b
  {
    if s != [] && e.score < s[0].score {
      InsertBounded(e, s[1..], b);
    }
  }

  lemma {:induction false} InsertNonIncreasing<T(!new)>(e: Entry<T>, s: seq<Entry<T>>)
    requires NonIncreasing(s)
    ensures NonIncreasing(Insert(e, s))
  {
    if s != [] && e.score < s[0].score {
      var rest := Insert(e, s[1..]);
      InsertNonIncreasing(e, s[1..]);
      InsertBounded(e, s[1..], s[0].score);
      var r := [s[0]] + rest;
      assert forall j :: 0 < j < |r| ==> r[j] == rest[j - 1];
    }
  }

  /** `sorted(..., reverse=True)` by score: a stable sort into non-increasing order. */
  function SortDesc<T(==,!new)>(s: seq<Entry<T>>): (r: seq<Entry<T>>)
    ensures NonIncreasing(r)
    ensures multiset(r) == multiset(s)
  {
    if s == [] then []
    else
      assert s == [s[0]] + s[1..];
      InsertNonIncreasing(s[0], SortDesc(s[1..]));
      Insert(s[0], SortDesc(s[1..]))
  }

  lemma {:induction false} InsertKeepsTies<T(!new)>(e: Entry<T>, s: seq<Entry<T>>, x: real)
    requires NonIncreasing(s)
    ensures WithScore(Insert(e, s), x) == (if e.score == x then [e] else []) + WithScore(s, x)
  {
    if s == [] || e.score >= s[0].score {
      assert ([e] + s)[1..] == s;
    } else {
      var t := Insert(e, s[1..]);
      assert NonIncreasing(s[1..]);
      InsertKeepsTies(e, s[1..], x);
      assert ([s[0]] + t)[1..] == t;
      var head := if s[0].score == x then [s[0]] else [];
      var mine := if e.score == x then [e] else [];
      calc {
        WithScore(Insert(e, s), x);
        == head + WithScore(t, x);
        == head + (mine + WithScore(s[1..], x));
        == { // The entry goes below the head, so they cannot both have score x.
             assert head == [] || mine == []; }
        mine + (head + WithScore(s[1..], x));
        == mine + WithScore(s, x);
      }
    }
  }

  /** Stability: sorting does not reorder entries with equal scores. */
  lemma {:induction false} SortDescKeepsTies<T(!new)>(s: seq<Entry<T>>, x: real)
    ensures WithScore(SortDesc(s), x) == WithScore(s, x)
  {
    if s != [] {
      SortDescKeepsTies(s[1..], x);
      InsertKeepsTies(s[0], SortDesc(s[1..]), x);
    }
  }

  /** `s[:n]`: the first `n` elements, or all of them when there are fewer. */
  function Take<T>(s: seq<T>, n: nat): (r: seq<T>)
    ensures |r| == Min(|s|, n)
    ensures r <= s
  {
    if |s| <= n then s else s[..n]
  }

  /** `dict(sorted(qualifying, key=score, reverse=True)[:3])`. */
  function TopThree<T(==,!new)>(s: seq<Entry<T>>, threshold: real): seq<Entry<T>>
  {
    Take(SortDesc(Above(s, threshold)), 3)
  }

  /** Every entry of a sequence lies in any sequence with the same multiset. */
  lemma InMultiset<T(!new)>(u: seq<Entry<T>>, v: seq<Entry<T>>, e: Entry<T>)
    requires multiset(u) == multiset(v)
    requires e in u
    ensures e in v
  {
    assert e in multiset(u);
  }

  lemma TopThreeQualifies<T(!new)>(s: seq<Entry<T>>, threshold: real, e: Entry<T>)
    requires e in TopThree(s, threshold)
    ensures e in s && e.score > threshold
  {
    var q := Above(s, threshold);
    var sorted := SortDesc(q);
    var i :| 0 <= i < |TopThree(s, threshold)| && TopThree(s, threshold)[i] == e;
    assert sorted[i] == e;
    InMultiset(sorted, q, e);
  }

  lemma TopThreeKeepsTies<T(!new)>(s: seq<Entry<T>>, threshold: real, x: real)
    ensures WithScore(TopThree(s, threshold), x) <= WithScore(s, x)
  {
    var q := Above(s, threshold);
    var r := TopThree(s, threshold);
    WithScorePrefix(r, SortDesc(q), x);
    SortDescKeepsTies(q, x);
    if x > threshold {
      AboveKeepsTies(s, threshold, x);
    } else {
      forall e | e in r
        ensures e.score > x
      {
        TopThreeQualifies(s, threshold, e);
      }
      NoneWithScore(r, x);
    }
  }

  lemma TopThreeDropsOnlyLower<T(!new)>(s: seq<Entry<T>>, threshold: real, e: Entry<T>, k: Entry<T>)
    requires e in s && e.score > threshold
    requires e !in TopThree(s, threshold) && k in TopThree(s, threshold)
    ensures e.score <= k.score
  {
    var q := Above(s, threshold);
    var sorted := SortDesc(q);
    var r := TopThree(s, threshold);
    InMultiset(q, sorted, e);
    var i :| 0 <= i < |sorted| && sorted[i] == e;
    var j :| 0 <= j < |r| && r[j] == k;
    assert sorted[j] == k;
    assert |r| <= i;
  }

  lemma TopThreeOrdered<T(!new)>(s: seq<Entry<T>>, threshold: real)
    ensures |TopThree(s, threshold)| == Min(3, |Above(s, threshold)|)
    ensures NonIncreasing(TopThree(s, threshold))
  {
    var sorted := SortDesc(Above(s, threshold));
    assert |sorted| == |multiset(sorted)| == |Above(s, threshold)|;
    var r := TopThree(s, threshold);
    assert forall i :: 0 <= i < |r| ==> r[i] == sorted[i];
  }

  /**
   * What the two technology maps promise: at most three entries, all from
   * the catalog and above the threshold, in non-increasing order; as many as
   * qualify up to three; for every score, the kept entries with that score
   * are the first ones of the catalog with that score (ties keep catalog
   * order); and no qualifying entry that was dropped outscores a kept one.
   */
  lemma TopThreeSpec<T(!new)>(s: seq<Entry<T>>, threshold: real)
    ensures |TopThree(s, threshold)| == Min(3, |Above(s, threshold)|)
    ensures forall e :: e in TopThree(s, threshold) ==> e in s && e.score > threshold
    ensures NonIncreasing(TopThree(s, threshold))
    ensures forall x :: WithScore(TopThree(s, threshold), x) <= WithScore(s, x)
    ensures forall e, k :: e in s && e.score > threshold && e !in TopThree(s, threshold) && k in TopThree(s, threshold)
              ==> e.score <= k.score
  {
    var r := TopThree(s, threshold);
    TopThreeOrdered(s, threshold);
    forall e | e in r
      ensures e in s && e.score > threshold
    {
      TopThreeQualifies(s, threshold, e);
    }
    forall x
      ensures WithScore(r, x) <= WithScore(s, x)
    {
      TopThreeKeepsTies(s, threshold, x);
    }
    forall e, k | e in s && e.score > threshold && e !in r && k in r
      ensures e.score <= k.score
    {
      TopThreeDropsOnlyLower(s, threshold, e, k);
    }
  }

  lemma {:induction false} NoneWithScore<T(!new)>(s: seq<Entry<T>>, x: real)
    requires forall e :: e in s ==> e.score > x
    ensures WithScore(s, x) == []
  {
    if s != [] {
      NoneWithScore(s[1..], x);
    }
  }

  /**
   * `max(items, key=score)`: the index of the first entry whose score is
   * maximal, as Python's `max` keeps the earliest of equal keys.
   */
  function ArgMax<T(!new)>(s: seq<Entry<T>>): (k: nat)
    requires |s| > 0
    ensures k < |s|
    ensures forall j :: 0 <= j < |s| ==> s[j].score <= s[k].score
    ensures forall j :: 0 <= j < k ==> s[j].score < s[k].score
  {
    if |s| == 1 then 0
    else
      var k := ArgMax(s[..|s| - 1]);
      if s[|s| - 1].score > s[k].score then |s| - 1 else k
  }

  /** `sum(score for each entry)`. */
  function SumScores<T(!new)>(s: seq<Entry<T>>): real
  {
    if s == [] then 0.0 else SumScores(s[..|s| - 1]) + s[|s| - 1].score
  }

  /** A sum of scores that all exceed `t` exceeds `t` times their number. */
  lemma {:induction false} SumScoresAbove<T(!new)>(s: seq<Entry<T>>, t: real)
    requires |s| > 0
    requires forall e :: e in s ==> e.score > t
    ensures SumScores(s) > t * (|s| as real)
  {
    var init := s[..|s| - 1];
    var last := s[|s| - 1];
    assert last in s;
    assert SumScores(s) == SumScores(init) + last.score;
    if |s| > 1 {
      assert forall e :: e in init ==> e in s;
      SumScoresAbove(init, t);
      calc {
        SumScores(s);
        == SumScores(init) + last.score;
        > t * (|init| as real) + last.score;
        > t * (|init| as real) + t;
        == { assert |s| as real == (|init| as real) + 1.0; }
        t * (|s| as real);
      }
    } else {
      assert init == [];
      assert t * (|s| as real) == t;
    }
  }

  /** The mean of scores that all exceed `t` exceeds `t`. */
  lemma MeanAbove<T(!new)>(s: seq<Entry<T>>, t: real)
    requires |s| > 0
    requires forall e :: e in s ==> e.score > t
    ensures SumScores(s) / (|s| as real) > t
  {
    SumScoresAbove(s, t);
    QuotientAbove(SumScores(s), |s| as real, t);
  }

  /** A quotient by a positive divisor exceeds `t` when the dividend exceeds `t` times the divisor. */
  lemma QuotientAbove(a: real, b: real, t: real)
    requires b > 0.0
    requires a > t * b
    ensures a / b > t
  {
    var q := a / b;
    assert q * b == a;
    assert (q - t) * b == a - t * b;
  }
}
