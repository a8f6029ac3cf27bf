/** Counting dictionaries as Python builds them (`d[k] = d.get(k, 0) + 1`):
    keys in first-seen order, then `max(d, key=...)` (the first maximum) and
    `sorted(d.items(), key=count, reverse=True)[:k]` (stable). */
module Tally {

  /** Number of occurrences of x in xs. */
  function Occ<T(==)>(xs: seq<T>, x: T): (r: nat)
    ensures r <= |xs|
    ensures x !in xs ==> r == 0
    ensures x in xs ==> r > 0
  {
    if xs == [] then 0 else (if xs[0] == x then 1 else 0) + Occ(xs[1..], x)
  }

  lemma {:induction false} OccAppend<T>(xs: seq<T>, y: T, x: T)
    ensures Occ(xs + [y], x) == Occ(xs, x) + (if y == x then 1 else 0)
  {
    if xs == [] {
      assert [y][1..] == [];
    } else {
      assert (xs + [y])[1..] == xs[1..] + [y];
      OccAppend(xs[1..], y, x);
    }
  }

  /** Index of the first occurrence of x in xs. */
  function FirstIndex<T(==)>(xs: seq<T>, x: T): (r: nat)
    requires x in xs
    ensures r < |xs| && xs[r] == x && x !in xs[..r]
  {
    if xs[0] == x then 0 else 1 + FirstIndex(xs[1..], x)
  }

  function KeysOf<T>(t: seq<(T, nat)>): (ks: seq<T>)
    ensures |ks| == |t| && forall i :: 0 <= i < |t| ==> ks[i] == t[i].0
  {
    seq(|t|, i requires 0 <= i < |t| => t[i].0)
  }

  /** One `d[x] = d.get(x, 0) + 1`. */
  function Bump<T(==)>(t: seq<(T, nat)>, x: T): (r: seq<(T, nat)>)
    ensures x in KeysOf(t) ==> |r| == |t|
    ensures x !in KeysOf(t) ==> r == t + [(x, 1)]
  {
    if t == [] then [(x, 1)]
    else if t[0].0 == x then [(x, t[0].1 + 1)] + t[1..]
    else
      assert KeysOf(t) == [t[0].0] + KeysOf(t[1..]);
      [t[0]] + Bump(t[1..], x)
  }

  /** The counting dictionary of xs, built left to right. */
  function TallyOf<T(==)>(xs: seq<T>): seq<(T, nat)>
  {
    if xs == [] then [] else Bump(TallyOf(xs[..|xs| - 1]), xs[|xs| - 1])
  }

  /** Facts about a well-formed tally of xs: distinct keys in first-seen
      order, each with its number of occurrences, covering every element. */
  predicate TallyOk<T(==)>(t: seq<(T, nat)>, xs: seq<T>) {
    (forall i :: 0 <= i < |t| ==> t[i].0 in xs && t[i].1 == Occ(xs, t[i].0))
    && (forall x :: x in xs ==> x in KeysOf(t))
    && (forall i, j :: 0 <= i < j < |t| ==> FirstIndex(xs, t[i].0) < FirstIndex(xs, t[j].0))
  }

  predicate DistinctKeys<T(==)>(t: seq<(T, nat)>) {
    forall i, j :: 0 <= i < j < |t| ==> t[i].0 != t[j].0
  }

  lemma {:induction false} BumpSpec<T>(t: seq<(T, nat)>, x: T, i: nat)
    requires DistinctKeys(t)
    requires i < |Bump(t, x)|
    ensures i < |t| ==> Bump(t, x)[i] == (t[i].0, t[i].1 + (if t[i].0 == x then 1 else 0))
    ensures i == |t| ==> Bump(t, x)[i] == (x, 1)
  {
    if t == [] {
    } else if t[0].0 == x {
      if 0 < i {
        assert t[0].0 != t[i].0;
        assert Bump(t, x)[i] == t[1..][i - 1];
      }
    } else if 0 < i {
      var r := Bump(t, x);
      var tail := t[1..];
      assert r == [t[0]] + Bump(tail, x);
      assert DistinctKeys(tail) by {
        forall a, b | 0 <= a < b < |tail| ensures tail[a].0 != tail[b].0 {
          assert t[a + 1].0 != t[b + 1].0;
        }
      }
      BumpSpec(tail, x, i - 1);
    }
  }

  lemma KeysIn<T>(t: seq<(T, nat)>, p: seq<T>)
    requires forall i :: 0 <= i < |t| ==> t[i].0 in p
    ensures forall k :: k in KeysOf(t) ==> k in p
  {
    forall k | k in KeysOf(t) ensures k in p {
      var i :| 0 <= i < |t| && KeysOf(t)[i] == k;
    }
  }

  lemma TallyDistinct<T>(t: seq<(T, nat)>, p: seq<T>)
    requires TallyOk(t, p)
    ensures DistinctKeys(t)
  {
    forall i, j | 0 <= i < j < |t| ensures t[i].0 != t[j].0 {
      assert FirstIndex(p, t[i].0) < FirstIndex(p, t[j].0);
    }
  }

  lemma BumpCounts<T>(t: seq<(T, nat)>, p: seq<T>, x: T)
    requires TallyOk(t, p)
    ensures forall i :: 0 <= i < |Bump(t, x)| ==>
              Bump(t, x)[i].0 in p + [x] && Bump(t, x)[i].1 == Occ(p + [x], Bump(t, x)[i].0)
  {
    var r := Bump(t, x);
    TallyDistinct(t, p);
    KeysIn(t, p);
    forall i | 0 <= i < |r|
      ensures r[i].0 in p + [x] && r[i].1 == Occ(p + [x], r[i].0)
    {
      BumpSpec(t, x, i);
      OccAppend(p, x, r[i].0);
      if i == |t| {
        assert x !in p;
      }
    }
  }

  lemma BumpCovers<T>(t: seq<(T, nat)>, p: seq<T>, x: T)
    requires TallyOk(t, p)
    ensures forall y :: y in p + [x] ==> y in KeysOf(Bump(t, x))
  {
    var r := Bump(t, x);
    TallyDistinct(t, p);
    KeysIn(t, p);
    forall y | y in p + [x] ensures y in KeysOf(r) {
      if y in p {
        var j :| 0 <= j < |t| && KeysOf(t)[j] == y;
        BumpSpec(t, x, j);
        assert KeysOf(r)[j] == y;
      } else {
        assert y == x && x !in KeysOf(t);
        BumpSpec(t, x, |t|);
        assert KeysOf(r)[|t|] == y;
      }
    }
  }

  lemma BumpOrdered<T>(t: seq<(T, nat)>, p: seq<T>, x: T)
    requires TallyOk(t, p)
    requires forall i :: 0 <= i < |Bump(t, x)| ==> Bump(t, x)[i].0 in p + [x]
    ensures forall i, j :: 0 <= i < j < |Bump(t, x)| ==>
              FirstIndex(p + [x], Bump(t, x)[i].0) < FirstIndex(p + [x], Bump(t, x)[j].0)
  {
    var r := Bump(t, x);
    TallyDistinct(t, p);
    KeysIn(t, p);
    forall i, j | 0 <= i < j < |r| ensures FirstIndex(p + [x], r[i].0) < FirstIndex(p + [x], r[j].0) {
      BumpSpec(t, x, i);
      BumpSpec(t, x, j);
      FirstIndexAppend(p, x, r[i].0);
      FirstIndexAppend(p, x, r[j].0);
    }
  }

  lemma {:induction false} TallyCorrect<T>(xs: seq<T>)
    ensures TallyOk(TallyOf(xs), xs)
    ensures |TallyOf(xs)| <= |xs|
  {
    if xs != [] {
      var p := xs[..|xs| - 1];
      var x := xs[|xs| - 1];
      assert xs == p + [x];
      TallyCorrect(p);
      BumpCounts(TallyOf(p), p, x);
      BumpCovers(TallyOf(p), p, x);
      BumpOrdered(TallyOf(p), p, x);
    }
  }

  lemma {:induction false} FirstIndexAppend<T>(p: seq<T>, x: T, y: T)
    requires y in p + [x]
    ensures y in p ==> FirstIndex(p + [x], y) == FirstIndex(p, y)
    ensures y !in p ==> FirstIndex(p + [x], y) == |p|
  {
    if p != [] && p[0] != y {
      assert (p + [x])[1..] == p[1..] + [x];
      FirstIndexAppend(p[1..], x, y);
    }
  }

  /** `max(d, key=d.get)`: the index of the first entry with the largest
      count. */
  function FirstMax<T>(t: seq<(T, nat)>): (r: nat)
    requires t != []
    ensures r < |t|
    ensures forall j :: 0 <= j < |t| ==> t[j].1 <= t[r].1
    ensures forall j :: 0 <= j < r ==> t[j].1 < t[r].1
  {
    if |t| == 1 then 0
    else
      var m := FirstMax(t[..|t| - 1]);
      if t[m].1 < t[|t| - 1].1 then |t| - 1 else m
  }

  /** One step of a stable sort in descending order of count: e goes after
      every entry whose count is at least its own. */
  function Insert<T>(s: seq<(T, nat)>, e: (T, nat)): (r: seq<(T, nat)>)
    ensures |r| == |s| + 1
    ensures multiset(r) == multiset(s) + multiset{e}
  {
    if s == [] || s[0].1 < e.1 then [e] + s
    else
      assert s == [s[0]] + s[1..];
      [s[0]] + Insert(s[1..], e)
  }

  /** The stable insertion keeps the counts non-increasing. */
  lemma {:induction false} InsertDescending<T>(s: seq<(T, nat)>, e: (T, nat))
    requires Descending(s)
    ensures Descending(Insert(s, e))
  {
    if s != [] && e.1 <= s[0].1 {
      var rest := Insert(s[1..], e);
      var r := [s[0]] + rest;
      InsertDescending(s[1..], e);
      forall i, j | 0 <= i < j < |r| ensures r[j].1 <= r[i].1 {
        assert r[j] == rest[j - 1];
        if i == 0 {
          assert rest[j - 1] in multiset(rest);
          if rest[j - 1] != e {
            var q :| 0 <= q < |s[1..]| && s[1..][q] == rest[j - 1];
            assert s[q + 1] == rest[j - 1];
          }
        } else {
          assert r[i] == rest[i - 1];
        }
      }
    }
  }

  /** Counts never increase along r. */
  predicate Descending<T>(r: seq<(T, nat)>) {
    forall i, j :: 0 <= i < j < |r| ==> r[j].1 <= r[i].1
  }

  /** `sorted(t, key=count, reverse=True)`: Python's sort is stable, so
      entries of equal count keep their order in t. */
  function SortDesc<T>(t: seq<(T, nat)>): (r: seq<(T, nat)>)
    ensures |r| == |t|
    ensures multiset(r) == multiset(t)
    ensures Descending(r)
  {
    if t == [] then []
    else
      assert t == t[..|t| - 1] + [t[|t| - 1]];
      InsertDescending(SortDesc(t[..|t| - 1]), t[|t| - 1]);
      Insert(SortDesc(t[..|t| - 1]), t[|t| - 1])
  }

  /** `sorted(d.items(), key=count, reverse=True)[:k]`. */
  function TopK<T>(t: seq<(T, nat)>, k: nat): (r: seq<(T, nat)>)
    ensures |r| == if k < |t| then k else |t|
    ensures forall i :: 0 <= i < |r| ==> r[i] in t
    ensures forall i, j :: 0 <= i < j < |r| ==> r[j].1 <= r[i].1
  {
    var s := SortDesc(t);
    var r := s[..if k < |t| then k else |t|];
    assert forall i :: 0 <= i < |r| ==> r[i] in t by {
      forall i | 0 <= i < |r| ensures r[i] in t {
        assert r[i] == s[i] && s[i] in multiset(s);
      }
    }
    r
  }

  /** key is a most frequent element of xs, and the first seen among the
      equally frequent ones. */
  predicate IsMode<T(==)>(xs: seq<T>, key: T) {
    key in xs
    && (forall x :: x in xs ==> Occ(xs, x) <= Occ(xs, key))
    && (forall x :: x in xs && Occ(xs, x) == Occ(xs, key) ==> FirstIndex(xs, key) <= FirstIndex(xs, x))
  }

  /** The key `max(d, key=d.get)` picks from a well-formed tally of xs is its
      mode, and its count is the key's number of occurrences. */
  lemma ModeOfTally<T>(t: seq<(T, nat)>, xs: seq<T>)
    requires TallyOk(t, xs) && t != []
    ensures IsMode(xs, t[FirstMax(t)].0)
    ensures t[FirstMax(t)].1 == Occ(xs, t[FirstMax(t)].0)
  {
    var m := FirstMax(t);
    var key := t[m].0;
    forall x | x in xs ensures Occ(xs, x) <= Occ(xs, key) {
      assert x in KeysOf(t);
      var j :| 0 <= j < |t| && KeysOf(t)[j] == x;
      assert t[j].1 == Occ(xs, x);
    }
    forall x | x in xs && Occ(xs, x) == Occ(xs, key) ensures FirstIndex(xs, key) <= FirstIndex(xs, x) {
      assert x in KeysOf(t);
      var j :| 0 <= j < |t| && KeysOf(t)[j] == x;
      assert t[j].1 == t[m].1;
      if j > m {
        assert FirstIndex(xs, t[m].0) < FirstIndex(xs, t[j].0);
      }
    }
  }

  /** The first mode is unique: two modes of the same list are equal. */
  lemma ModeUnique<T>(xs: seq<T>, a: T, b: T)
    requires IsMode(xs, a) && IsMode(xs, b)
    ensures a == b
  {
    assert FirstIndex(xs, a) == FirstIndex(xs, b);
  }

  /** a ranks ahead of b in `sorted(..., key=count, reverse=True)` over a
      tally of xs: a larger count, or an equal count and an earlier first
      occurrence (the sort is stable and the tally is in first-seen order). */
  predicate Ahead<T(==)>(xs: seq<T>, a: (T, nat), b: (T, nat)) {
    a.0 in xs && b.0 in xs
    && (b.1 < a.1 || (b.1 == a.1 && FirstIndex(xs, a.0) < FirstIndex(xs, b.0)))
  }

  /** The keys of t are elements of xs, in order of first occurrence. */
  predicate KeysIncreasing<T(==)>(t: seq<(T, nat)>, xs: seq<T>) {
    (forall i :: 0 <= i < |t| ==> t[i].0 in xs)
    && (forall i, j :: 0 <= i < j < |t| ==> FirstIndex(xs, t[i].0) < FirstIndex(xs, t[j].0))
  }

  /** Distinct keys, each entry ranked ahead of every later one. */
  predicate Ranked<T(==)>(xs: seq<T>, r: seq<(T, nat)>) {
    forall i, j :: 0 <= i < j < |r| ==> r[i].0 != r[j].0 && Ahead(xs, r[i], r[j])
  }

  /* The ranking proofs below run over any ranking of the keys; the one the
     sort uses is the position of first occurrence in xs. */

  /** The position of a key's first occurrence in xs. */
  function FirstSeen<T(==)>(xs: seq<T>): T -> int {
    x => if x in xs then FirstIndex(xs, x) else -1
  }

  /** a is ahead of b: a larger count, or the same count and a lower rank. */
  predicate AheadBy<T>(rank: T -> int, a: (T, nat), b: (T, nat)) {
    b.1 < a.1 || (b.1 == a.1 && rank(a.0) < rank(b.0))
  }

  predicate IncreasingBy<T>(t: seq<(T, nat)>, rank: T -> int) {
    forall i, j {:trigger rank(t[i].0), rank(t[j].0)} :: 0 <= i < j < |t| ==> rank(t[i].0) < rank(t[j].0)
  }

  predicate RankedBy<T(==)>(rank: T -> int, r: seq<(T, nat)>) {
    forall i, j :: 0 <= i < j < |r| ==> r[i].0 != r[j].0 && AheadBy(rank, r[i], r[j])
  }

  lemma FirstSeenIncreasing<T>(t: seq<(T, nat)>, xs: seq<T>)
    requires KeysIncreasing(t, xs)
    ensures IncreasingBy(t, FirstSeen(xs))
  {
  }

  lemma AheadFirstSeen<T>(xs: seq<T>, a: (T, nat), b: (T, nat))
    requires a.0 in xs && b.0 in xs
    ensures Ahead(xs, a, b) <==> AheadBy(FirstSeen(xs), a, b)
  {
  }

  /** Putting ahead of a ranking an entry that ranks ahead of each of its
      entries keeps it a ranking. */
  lemma ConsRanked<T>(rank: T -> int, x: (T, nat), rest: seq<(T, nat)>)
    requires forall i :: 0 <= i < |rest| ==> rest[i].0 != x.0 && AheadBy(rank, x, rest[i])
    requires RankedBy(rank, rest)
    ensures RankedBy(rank, [x] + rest)
  {
    var r := [x] + rest;
    forall i, j | 0 <= i < j < |r| ensures r[i].0 != r[j].0 && AheadBy(rank, r[i], r[j]) {
      assert r[j] == rest[j - 1];
      if 0 < i {
        assert r[i] == rest[i - 1];
      }
    }
  }

  /** Inserting an entry ranked after every entry of a ranking keeps it a
      ranking: the stable sort puts it behind the entries of equal count. */
  lemma {:induction false} InsertRanked<T>(rank: T -> int, s: seq<(T, nat)>, e: (T, nat))
    requires RankedBy(rank, s)
    requires forall i :: 0 <= i < |s| ==> s[i].0 != e.0 && rank(s[i].0) < rank(e.0)
    ensures RankedBy(rank, Insert(s, e))
  {
    if s == [] || s[0].1 < e.1 {
      forall i | 0 <= i < |s| ensures s[i].0 != e.0 && AheadBy(rank, e, s[i]) {
        if 0 < i {
          assert AheadBy(rank, s[0], s[i]);
        }
      }
      ConsRanked(rank, e, s);
    } else {
      var rest := Insert(s[1..], e);
      InsertRanked(rank, s[1..], e);
      forall i | 0 <= i < |rest| ensures rest[i].0 != s[0].0 && AheadBy(rank, s[0], rest[i]) {
        assert rest[i] in multiset(rest);
        if rest[i] != e {
          var q :| 0 <= q < |s[1..]| && s[1..][q] == rest[i];
          assert AheadBy(rank, s[0], s[q + 1]);
        }
      }
      ConsRanked(rank, s[0], rest);
    }
  }

  /** Sorting a tally whose keys increase in rank ranks it. */
  lemma {:induction false} SortRanked<T>(t: seq<(T, nat)>, rank: T -> int)
    requires IncreasingBy(t, rank)
    ensures RankedBy(rank, SortDesc(t))
  {
    if t != [] {
      var p := t[..|t| - 1];
      var e := t[|t| - 1];
      var s := SortDesc(p);
      assert IncreasingBy(p, rank) by {
        forall i, j | 0 <= i < j < |p| ensures rank(p[i].0) < rank(p[j].0) {
          assert p[i] == t[i] && p[j] == t[j];
        }
      }
      SortRanked(p, rank);
      forall i | 0 <= i < |s| ensures s[i].0 != e.0 && rank(s[i].0) < rank(e.0) {
        assert s[i] in multiset(p);
        var q :| 0 <= q < |p| && p[q] == s[i];
        assert p[q] == t[q];
      }
      InsertRanked(rank, s, e);
    }
  }

  /** The ranking has distinct keys, each entry ahead of every later one. */
  lemma TopKPairs<T>(t: seq<(T, nat)>, xs: seq<T>, k: nat)
    requires KeysIncreasing(t, xs)
    ensures Ranked(xs, TopK(t, k))
  {
    var s := SortDesc(t);
    var r := TopK(t, k);
    FirstSeenIncreasing(t, xs);
    SortRanked(t, FirstSeen(xs));
    forall i, j | 0 <= i < j < |r| ensures r[i].0 != r[j].0 && Ahead(xs, r[i], r[j]) {
      assert r[i] == s[i] && r[j] == s[j];
      var a :| 0 <= a < |t| && t[a] == r[i];
      var b :| 0 <= b < |t| && t[b] == r[j];
      AheadFirstSeen(xs, r[i], r[j]);
    }
  }

  /** Under a ranking the sort follows, every entry the ranking leaves out
      ranks behind all it takes. */
  lemma TopKBehind<T>(rank: T -> int, t: seq<(T, nat)>, k: nat)
    requires RankedBy(rank, SortDesc(t))
    ensures forall e :: e in t && e.0 !in KeysOf(TopK(t, k)) ==>
              forall i :: 0 <= i < |TopK(t, k)| ==> AheadBy(rank, TopK(t, k)[i], e)
  {
    var s := SortDesc(t);
    var r := TopK(t, k);
    forall e, i | e in t && e.0 !in KeysOf(r) && 0 <= i < |r| ensures AheadBy(rank, r[i], e) {
      assert e in multiset(s);
      var p :| 0 <= p < |s| && s[p] == e;
      assert r[i] == s[i];
    }
  }

  /** Every entry the ranking leaves out ranks behind all it takes. */
  lemma TopKLeftOut<T>(t: seq<(T, nat)>, xs: seq<T>, k: nat)
    requires KeysIncreasing(t, xs)
    ensures forall e :: e in t && e.0 !in KeysOf(TopK(t, k)) ==>
              forall i :: 0 <= i < |TopK(t, k)| ==> Ahead(xs, TopK(t, k)[i], e)
  {
    var r := TopK(t, k);
    FirstSeenIncreasing(t, xs);
    SortRanked(t, FirstSeen(xs));
    TopKBehind(FirstSeen(xs), t, k);
    forall e, i | e in t && e.0 !in KeysOf(r) && 0 <= i < |r| ensures Ahead(xs, r[i], e) {
      var a :| 0 <= a < |t| && t[a] == r[i];
      var b :| 0 <= b < |t| && t[b] == e;
      AheadFirstSeen(xs, r[i], e);
    }
  }

  /** A ranking shorter than k takes every entry. */
  lemma TopKCovers<T>(t: seq<(T, nat)>, k: nat)
    ensures |TopK(t, k)| < k ==> forall e :: e in t ==> e.0 in KeysOf(TopK(t, k))
  {
    var s := SortDesc(t);
    var r := TopK(t, k);
    if |r| < k {
      forall e | e in t ensures e.0 in KeysOf(r) {
        assert e in multiset(s);
        var p :| 0 <= p < |s| && s[p] == e;
        assert r[p] == s[p];
        assert KeysOf(r)[p] == e.0;
      }
    }
  }

  /** r is `sorted(tally(xs).items(), key=count, reverse=True)[:k]`: at most
      k distinct elements of xs with their counts, each ranked ahead of the
      ones after it, and every element left out ranked behind all of them,
      which happens only when k are taken. */
  predicate RankedCounts<T(==)>(r: seq<(T, nat)>, xs: seq<T>, k: nat) {
    |r| <= k
    && (forall i :: 0 <= i < |r| ==> r[i].0 in xs && r[i].1 == Occ(xs, r[i].0))
    && Ranked(xs, r)
    && (forall x :: x in xs && x !in KeysOf(r) ==>
          |r| == k && forall i :: 0 <= i < |r| ==> Ahead(xs, r[i], (x, Occ(xs, x))))
  }

  /** Ranking a well-formed tally of xs gives its k most frequent elements,
      first seen first among equals. */
  lemma TopKRanked<T>(t: seq<(T, nat)>, xs: seq<T>, k: nat)
    requires TallyOk(t, xs)
    ensures RankedCounts(TopK(t, k), xs, k)
    ensures |TopK(t, k)| == if k < |KeysOf(t)| then k else |t|
  {
    var r := TopK(t, k);
    TopKPairs(t, xs, k);
    TopKLeftOut(t, xs, k);
    TopKCovers(t, k);
    forall i | 0 <= i < |r| ensures r[i].0 in xs && r[i].1 == Occ(xs, r[i].0) {
      var q :| 0 <= q < |t| && t[q] == r[i];
    }
    forall x | x in xs && x !in KeysOf(r)
      ensures |r| == k && forall i :: 0 <= i < |r| ==> Ahead(xs, r[i], (x, Occ(xs, x)))
    {
      assert x in KeysOf(t);
      var q :| 0 <= q < |t| && KeysOf(t)[q] == x;
      assert t[q] == (x, Occ(xs, x)) && t[q] in t;
    }
  }

  /** The ranking is determined: two lists meeting RankedCounts for the same
      xs and k are equal. */
  lemma RankedUnique<T>(r1: seq<(T, nat)>, r2: seq<(T, nat)>, xs: seq<T>, k: nat)
    requires RankedCounts(r1, xs, k) && RankedCounts(r2, xs, k)
    ensures r1 == r2
  {
    RankedAgree(r1, r2, xs, k, 0);
  }

  lemma {:induction false} RankedAgree<T>(r1: seq<(T, nat)>, r2: seq<(T, nat)>, xs: seq<T>, k: nat, i: nat)
    requires RankedCounts(r1, xs, k) && RankedCounts(r2, xs, k)
    requires i <= |r1| && i <= |r2| && r1[..i] == r2[..i]
    ensures r1 == r2
    decreases |r1| + |r2| - 2 * i
  {
    if i < |r1| && i < |r2| {
      if r1[i] != r2[i] {
        RankedAhead(r1, r2, xs, k, i);
        RankedAhead(r2, r1, xs, k, i);
        assert false;
      }
      assert r1[..i + 1] == r2[..i + 1] by {
        assert r1[..i + 1] == r1[..i] + [r1[i]];
        assert r2[..i + 1] == r2[..i] + [r2[i]];
      }
      RankedAgree(r1, r2, xs, k, i + 1);
    } else if i < |r1| {
      KeyNotBefore(r1, xs, k, i);
      assert false;
    } else if i < |r2| {
      KeyNotBefore(r2, xs, k, i);
      assert false;
    } else {
      assert r1 == r1[..i] && r2 == r2[..i];
    }
  }

  /** When two rankings agree before i, the i-th entry of the second ranks
      ahead of the i-th entry of the first, unless they are equal. */
  lemma RankedAhead<T>(r1: seq<(T, nat)>, r2: seq<(T, nat)>, xs: seq<T>, k: nat, i: nat)
    requires RankedCounts(r1, xs, k) && RankedCounts(r2, xs, k)
    requires i < |r1| && i < |r2| && r1[..i] == r2[..i] && r1[i] != r2[i]
    ensures Ahead(xs, r2[i], r1[i])
  {
    var a := r1[i];
    assert a == (a.0, Occ(xs, a.0));
    if a.0 in KeysOf(r2) {
      var j :| 0 <= j < |r2| && KeysOf(r2)[j] == a.0;
      assert r2[j] == a;
    }
  }

  /** An entry of a ranking does not repeat a key of the entries before it. */
  lemma KeyNotBefore<T>(r: seq<(T, nat)>, xs: seq<T>, k: nat, i: nat)
    requires RankedCounts(r, xs, k) && i < |r|
    ensures r[i].0 !in KeysOf(r[..i])
  {
    forall j | 0 <= j < i ensures KeysOf(r[..i])[j] != r[i].0 {
      assert r[..i][j] == r[j];
    }
  }

  lemma TallyNonEmpty<T>(xs: seq<T>)
    requires xs != []
    ensures TallyOf(xs) != []
  {
    TallyCorrect(xs);
    assert xs[0] in KeysOf(TallyOf(xs));
  }

  /** The counting loop `for x in xs: d[x] = d.get(x, 0) + 1`. */
  method CountLoop<T(==)>(xs: seq<T>) returns (t: seq<(T, nat)>)
    ensures t == TallyOf(xs)
    ensures TallyOk(t, xs)
  {
    t := [];
    var i := 0;
    while i < |xs|
      invariant 0 <= i <= |xs|
      invariant t == TallyOf(xs[..i])
    {
      assert xs[..i + 1][..i] == xs[..i];
      t := Bump(t, xs[i]);
      i := i + 1;
    }
    assert xs[..|xs|] == xs;
    TallyCorrect(xs);
  }
}
