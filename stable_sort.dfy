/** Python's `list.sort(key=score, reverse=True)`: a stable sort into
    descending score order (elements with equal scores keep their input
    order), specified by insertion. */
module StableSort {
  import opened Seqs

  predicate SortedDesc<T>(s: seq<T>, score: T -> real) {
    forall i, j :: 0 <= i < j < |s| ==> score(s[i]) >= score(s[j])
  }

  /** The elements of `s` whose score is exactly `v`, in order. */
  function SameScore<T>(s: seq<T>, score: T -> real, v: real): seq<T> {
    Filter(s, x => score(x) == v)
  }

  /** Insert `x` after every element whose score is at least `score(x)`. */
  function InsertDesc<T(==)>(s: seq<T>, x: T, score: T -> real): (r: seq<T>)
    ensures multiset(r) == multiset(s) + multiset{x}
    decreases |s|
  {
    if s == [] || score(s[|s| - 1]) >= score(x) then s + [x]
    else
      assert s == s[..|s| - 1] + [s[|s| - 1]];
      InsertDesc(s[..|s| - 1], x, score) + [s[|s| - 1]]
  }

  /** The stable descending sort of `s`. */
  function SortDesc<T(==)>(s: seq<T>, score: T -> real): (r: seq<T>)
    ensures multiset(r) == multiset(s)
    decreases |s|
  {
    if s == [] then []
    else
      assert s == s[..|s| - 1] + [s[|s| - 1]];
      InsertDesc(SortDesc(s[..|s| - 1], score), s[|s| - 1], score)
  }

  lemma {:induction false} InsertKeepsSorted<T>(s: seq<T>, x: T, score: T -> real)
    requires SortedDesc(s, score)
    ensures SortedDesc(InsertDesc(s, x, score), score)
    decreases |s|
  {
    if s == [] || score(s[|s| - 1]) >= score(x) {
    } else {
      var init, last := s[..|s| - 1], s[|s| - 1];
      InsertKeepsSorted(init, x, score);
      var r' := InsertDesc(init, x, score);
      forall y | y in r' ensures score(y) >= score(last) {
        assert y in multiset(r');
        if y != x {
          assert y in multiset(init);
          var i :| 0 <= i < |init| && init[i] == y;
          assert s[i] == y;
        }
      }
      var r := r' + [last];
      forall i, j | 0 <= i < j < |r| ensures score(r[i]) >= score(r[j]) {
        if j == |r'| { assert r[i] in r'; }
      }
    }
  }

  lemma {:induction false} InsertStable<T>(s: seq<T>, x: T, score: T -> real, v: real)
    ensures SameScore(InsertDesc(s, x, score), score, v)
         == SameScore(s, score, v) + (if score(x) == v then [x] else [])
    decreases |s|
  {
    if s == [] || score(s[|s| - 1]) >= score(x) {
      assert (s + [x])[..|s|] == s;
    } else {
      var init, last := s[..|s| - 1], s[|s| - 1];
      InsertStable(init, x, score, v);
      var r' := InsertDesc(init, x, score);
      var r := r' + [last];
      assert r[..|r| - 1] == r';
    }
  }

  lemma {:induction false} SortDescSorted<T>(s: seq<T>, score: T -> real)
    ensures SortedDesc(SortDesc(s, score), score)
    decreases |s|
  {
    if s != [] {
      SortDescSorted(s[..|s| - 1], score);
      InsertKeepsSorted(SortDesc(s[..|s| - 1], score), s[|s| - 1], score);
    }
  }

  /** Equal-score elements come out in their input order. */
  lemma {:induction false} SortDescStable<T>(s: seq<T>, score: T -> real, v: real)
    ensures SameScore(SortDesc(s, score), score, v) == SameScore(s, score, v)
    decreases |s|
  {
    if s != [] {
      SortDescStable(s[..|s| - 1], score, v);
      InsertStable(SortDesc(s[..|s| - 1], score), s[|s| - 1], score, v);
    }
  }

  /** Deleting elements from a descending list leaves it descending. */
  lemma {:induction false} SubseqOfSorted<T>(a: seq<T>, b: seq<T>, score: T -> real)
    requires IsSubseq(a, b) && SortedDesc(b, score)
    ensures SortedDesc(a, score)
    decreases |b|
  {
    if a != [] {
      var b' := b[..|b| - 1];
      if a[|a| - 1] == b[|b| - 1] && IsSubseq(a[..|a| - 1], b') {
        SubseqOfSorted(a[..|a| - 1], b', score);
        SubseqMembers(a[..|a| - 1], b');
        forall i, j | 0 <= i < j < |a| ensures score(a[i]) >= score(a[j]) {
          if j == |a| - 1 {
            assert a[i] in a[..|a| - 1];
            var k :| 0 <= k < |b'| && b'[k] == a[i];
            assert b[k] == a[i];
          } else {
            assert a[i] == a[..|a| - 1][i] && a[j] == a[..|a| - 1][j];
          }
        }
      } else {
        SubseqOfSorted(a, b', score);
      }
    }
  }
}
