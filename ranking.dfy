/** Python's `list.sort(key=score, reverse=True)` and the slice `xs[:limit]`.
    The sort is stable: elements with equal scores keep their relative order,
    also with `reverse=True`. It is modelled by insertion sort. */
module Ranking {

  /** Inserts `x` after every element whose score is at least its own. */
  function Insert<T>(x: T, s: seq<T>, score: T -> real): (r: seq<T>)
    ensures |r| == |s| + 1
  {
    if s == [] then [x]
    else if score(s[0]) >= score(x) then [s[0]] + Insert(x, s[1..], score)
    else [x] + s
  }

  /** The list sorted by descending score, stably. */
  function SortDesc<T>(xs: seq<T>, score: T -> real): (r: seq<T>)
    ensures |r| == |xs|
  {
    if xs == [] then [] else Insert(xs[|xs| - 1], SortDesc(xs[..|xs| - 1], score), score)
  }

  ghost predicate NonIncreasing<T>(s: seq<T>, score: T -> real) {
    forall i, j :: 0 <= i < j < |s| ==> score(s[i]) >= score(s[j])
  }

  /** The elements of `s` whose score is `v`, in their order in `s`. */
  function WithScore<T>(s: seq<T>, score: T -> real, v: real): seq<T> {
    if s == [] then []
    else (if score(s[0]) == v then [s[0]] else []) + WithScore(s[1..], score, v)
  }

  /** Ordered by descending score, and by ascending rank among equal scores. */
  ghost predicate RankedDesc<T>(s: seq<T>, score: T -> real, rank: T -> int) {
    forall i, j :: 0 <= i < j < |s| ==>
      score(s[i]) > score(s[j]) || (score(s[i]) == score(s[j]) && rank(s[i]) < rank(s[j]))
  }

  lemma {:induction false} InsertPermutes<T>(x: T, s: seq<T>, score: T -> real)
    ensures multiset(Insert(x, s, score)) == multiset(s) + multiset{x}
  {
    if s != [] && score(s[0]) >= score(x) {
      InsertPermutes(x, s[1..], score);
      assert s == [s[0]] + s[1..];
    }
  }

  lemma {:induction false} InsertSorted<T>(x: T, s: seq<T>, score: T -> real)
    requires NonIncreasing(s, score)
    ensures NonIncreasing(Insert(x, s, score), score)
  {
    if s != [] && score(s[0]) >= score(x) {
      InsertSorted(x, s[1..], score);
      InsertPermutes(x, s[1..], score);
      var r := Insert(x, s[1..], score);
      forall j | 0 <= j < |r| ensures score(s[0]) >= score(r[j]) {
        assert r[j] in multiset(r);
        if r[j] != x {
          assert r[j] in multiset(s[1..]);
          var k :| 0 <= k < |s[1..]| && s[1..][k] == r[j];
          assert s[k + 1] == r[j];
        }
      }
    }
  }

  lemma {:induction false} WithScoreAppend<T>(s: seq<T>, t: seq<T>, score: T -> real, v: real)
    ensures WithScore(s + t, score, v) == WithScore(s, score, v) + WithScore(t, score, v)
  {
    if s != [] {
      var st := s + t;
      assert st[0] == s[0] && st[1..] == s[1..] + t;
      WithScoreAppend(s[1..], t, score, v);
    } else {
      assert s + t == t;
    }
  }

  lemma {:induction false} WithScoreNone<T>(s: seq<T>, score: T -> real, v: real)
    requires forall i :: 0 <= i < |s| ==> score(s[i]) != v
    ensures WithScore(s, score, v) == []
  {
    if s != [] {
      WithScoreNone(s[1..], score, v);
    }
  }

  lemma NonIncreasingTail<T>(s: seq<T>, score: T -> real)
    requires s != [] && NonIncreasing(s, score)
    ensures NonIncreasing(s[1..], score)
  {
    forall i, j | 0 <= i < j < |s[1..]| ensures score(s[1..][i]) >= score(s[1..][j]) {
      assert s[1..][i] == s[i + 1] && s[1..][j] == s[j + 1];
    }
  }

  lemma WithScoreCons<T>(y: T, s: seq<T>, score: T -> real, v: real)
    ensures WithScore([y] + s, score, v) == (if score(y) == v then [y] else []) + WithScore(s, score, v)
  {
    var ys := [y] + s;
    assert ys[0] == y && ys[1..] == s;
  }

  /** Inserting `x` into a sorted list appends it to the run of its own score
      and leaves every other run alone. */
  lemma {:induction false} InsertWithScore<T>(x: T, s: seq<T>, score: T -> real, v: real)
    requires NonIncreasing(s, score)
    ensures WithScore(Insert(x, s, score), score, v) ==
            WithScore(s, score, v) + (if score(x) == v then [x] else [])
  {
    if s == [] || score(s[0]) < score(x) {
      InsertInFront(x, s, score, v);
    } else {
      NonIncreasingTail(s, score);
      InsertWithScore(x, s[1..], score, v);
      WithScoreCons(s[0], Insert(x, s[1..], score), score, v);
      WithScoreCons(s[0], s[1..], score, v);
      assert [s[0]] + s[1..] == s;
      var h := if score(s[0]) == v then [s[0]] else [];
      var tail := if score(x) == v then [x] else [];
      assert h + (WithScore(s[1..], score, v) + tail) == (h + WithScore(s[1..], score, v)) + tail;
    }
  }

  /** The case of `InsertWithScore` where `x` goes in front: no element
      of `s` has the score of `x`. */
  lemma InsertInFront<T>(x: T, s: seq<T>, score: T -> real, v: real)
    requires NonIncreasing(s, score)
    requires s == [] || score(s[0]) < score(x)
    ensures WithScore(Insert(x, s, score), score, v) ==
            WithScore(s, score, v) + (if score(x) == v then [x] else [])
  {
    if score(x) == v {
      forall i | 0 <= i < |s| ensures score(s[i]) != v {
        if i > 0 {
          assert score(s[0]) >= score(s[i]);
        }
      }
      WithScoreNone(s, score, v);
    }
    WithScoreCons(x, s, score, v);
  }

  /** Sorting is a permutation. */
  lemma {:induction false} SortDescPermutes<T>(xs: seq<T>, score: T -> real)
    ensures multiset(SortDesc(xs, score)) == multiset(xs)
  {
    if xs != [] {
      var init := xs[..|xs| - 1];
      SortDescPermutes(init, score);
      InsertPermutes(xs[|xs| - 1], SortDesc(init, score), score);
      assert xs == init + [xs[|xs| - 1]];
    }
  }

  /** The sorted list has non-increasing scores. */
  lemma {:induction false} SortDescSorted<T>(xs: seq<T>, score: T -> real)
    ensures NonIncreasing(SortDesc(xs, score), score)
  {
    if xs != [] {
      SortDescSorted(xs[..|xs| - 1], score);
      InsertSorted(xs[|xs| - 1], SortDesc(xs[..|xs| - 1], score), score);
    }
  }

  /** Stability: for every score, the elements with that score appear in the
      sorted list in the same order as in the input. */
  lemma {:induction false} SortDescStable<T>(xs: seq<T>, score: T -> real, v: real)
    ensures WithScore(SortDesc(xs, score), score, v) == WithScore(xs, score, v)
  {
    if xs != [] {
      var init := xs[..|xs| - 1];
      var x := xs[|xs| - 1];
      SortDescStable(init, score, v);
      SortDescSorted(init, score);
      InsertWithScore(x, SortDesc(init, score), score, v);
      assert xs == init + [x];
      WithScoreAppend(init, [x], score, v);
    }
  }

  lemma {:induction false} InsertRanked<T>(x: T, s: seq<T>, score: T -> real, rank: T -> int)
    requires RankedDesc(s, score, rank)
    requires forall i :: 0 <= i < |s| ==> rank(s[i]) < rank(x)
    ensures RankedDesc(Insert(x, s, score), score, rank)
  {
    if s != [] && score(s[0]) >= score(x) {
      InsertRanked(x, s[1..], score, rank);
      InsertPermutes(x, s[1..], score);
      var r := Insert(x, s[1..], score);
      forall j | 0 <= j < |r|
        ensures score(s[0]) > score(r[j]) || (score(s[0]) == score(r[j]) && rank(s[0]) < rank(r[j]))
      {
        assert r[j] in multiset(r);
        if r[j] != x {
          assert r[j] in multiset(s[1..]);
          var k :| 0 <= k < |s[1..]| && s[1..][k] == r[j];
          assert s[k + 1] == r[j];
        }
      }
    }
  }

  /** When the input lists elements by strictly increasing rank (catalogue
      position, say), the sorted list orders equal scores by that rank. */
  lemma {:induction false} SortDescRanked<T>(xs: seq<T>, score: T -> real, rank: T -> int)
    requires forall i, j :: 0 <= i < j < |xs| ==> rank(xs[i]) < rank(xs[j])
    ensures RankedDesc(SortDesc(xs, score), score, rank)
  {
    if xs != [] {
      var init := xs[..|xs| - 1];
      var x := xs[|xs| - 1];
      SortDescRanked(init, score, rank);
      SortDescPermutes(init, score);
      var s := SortDesc(init, score);
      forall i | 0 <= i < |s| ensures rank(s[i]) < rank(x) {
        assert s[i] in multiset(init);
        var k :| 0 <= k < |init| && init[k] == s[i];
      }
      InsertRanked(x, s, score, rank);
    }
  }

  /** Length of Python's `xs[:limit]` for a list of length n. */
  function SliceLen(n: nat, limit: int): (m: nat)
    ensures m <= n
    ensures limit >= 0 ==> m == if limit < n then limit else n
    ensures limit < 0 ==> m == if n + limit > 0 then n + limit else 0
  {
    if limit >= 0 then (if limit < n then limit else n)
    else if n + limit > 0 then n + limit else 0
  }

  /** Python's `xs[:limit]`: a negative limit counts from the end. */
  function SliceTo<T>(xs: seq<T>, limit: int): (r: seq<T>)
    ensures r == xs[..SliceLen(|xs|, limit)]
  {
    xs[..SliceLen(|xs|, limit)]
  }

  /** The first `limit` of the sorted list, Python slice semantics: as many
      as the slice gives, in non-increasing order, drawn from the input, and
      nothing left out scores above anything kept. */
  lemma TopSpec<T>(xs: seq<T>, score: T -> real, limit: int)
    ensures var out := SliceTo(SortDesc(xs, score), limit);
      && |out| == SliceLen(|xs|, limit)
      && NonIncreasing(out, score)
      && multiset(out) <= multiset(xs)
      && forall x :: x in multiset(xs) - multiset(out) ==>
           forall j :: 0 <= j < |out| ==> score(out[j]) >= score(x)
  {
    TopSorted(xs, score, limit);
    TopDrawn(xs, score, limit);
    TopDominates(xs, score, limit);
  }

  lemma TopSorted<T>(xs: seq<T>, score: T -> real, limit: int)
    ensures NonIncreasing(SliceTo(SortDesc(xs, score), limit), score)
  {
    var sorted := SortDesc(xs, score);
    var out := SliceTo(sorted, limit);
    SortDescSorted(xs, score);
    forall i, j | 0 <= i < j < |out| ensures score(out[i]) >= score(out[j]) {
      assert out[i] == sorted[i] && out[j] == sorted[j];
    }
  }

  lemma TopDrawn<T>(xs: seq<T>, score: T -> real, limit: int)
    ensures multiset(SliceTo(SortDesc(xs, score), limit)) <= multiset(xs)
  {
    var sorted := SortDesc(xs, score);
    var out := SliceTo(sorted, limit);
    SortDescPermutes(xs, score);
    assert sorted == out + sorted[|out|..];
    assert multiset(sorted) == multiset(out) + multiset(sorted[|out|..]);
  }

  lemma TopDominates<T>(xs: seq<T>, score: T -> real, limit: int)
    ensures var out := SliceTo(SortDesc(xs, score), limit);
      forall x :: x in multiset(xs) - multiset(out) ==>
        forall j :: 0 <= j < |out| ==> score(out[j]) >= score(x)
  {
    var sorted := SortDesc(xs, score);
    var out := SliceTo(sorted, limit);
    var m := |out|;
    SortDescPermutes(xs, score);
    SortDescSorted(xs, score);
    assert sorted == out + sorted[m..];
    assert multiset(sorted) == multiset(out) + multiset(sorted[m..]);
    TailDominated(sorted, score, m);
    assert forall j :: 0 <= j < m ==> out[j] == sorted[j];
  }

  /** In a non-increasing list, everything from position `m` on scores at
      most what comes before `m`. */
  lemma TailDominated<T>(sorted: seq<T>, score: T -> real, m: nat)
    requires NonIncreasing(sorted, score) && m <= |sorted|
    ensures forall x :: x in multiset(sorted[m..]) ==>
              forall j :: 0 <= j < m ==> score(sorted[j]) >= score(x)
  {
    forall x | x in multiset(sorted[m..])
      ensures forall j :: 0 <= j < m ==> score(sorted[j]) >= score(x)
    {
      var k :| 0 <= k < |sorted[m..]| && sorted[m..][k] == x;
      assert sorted[m + k] == x;
    }
  }
}
