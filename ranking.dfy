/** The shape both backend rankers share: keep and annotate recipes in input
    order, sort them best first (stably), drop later recipes whose title key
    was already seen, and cut the list. Stated once over any element type. */
module TopRanking {
  import opened Seqs
  import opened Dedup
  import opened StableSort

  /** The elements passing `keep`, each transformed by `f`, in input order. */
  function FilterMap<A, B>(s: seq<A>, keep: A -> bool, f: A -> B): (r: seq<B>)
    ensures |r| <= |s|
    decreases |s|
  {
    if s == [] then []
    else if keep(s[|s| - 1]) then FilterMap(s[..|s| - 1], keep, f) + [f(s[|s| - 1])]
    else FilterMap(s[..|s| - 1], keep, f)
  }

  /** One more input element adds its image when it is kept, and nothing otherwise. */
  lemma FilterMapStep<A, B>(s: seq<A>, i: nat, keep: A -> bool, f: A -> B)
    requires i < |s|
    ensures FilterMap(s[..i + 1], keep, f) == FilterMap(s[..i], keep, f) + (if keep(s[i]) then [f(s[i])] else [])
  {
    assert s[..i + 1][..i] == s[..i];
  }

  /** `y` is the image of some element of `s` that passes `keep`. */
  ghost predicate ImageOfKept<A, B>(s: seq<A>, keep: A -> bool, f: A -> B, y: B) {
    exists i :: 0 <= i < |s| && keep(s[i]) && y == f(s[i])
  }

  /** Every element of `r` is the image of some element of `s` that passes `keep`. */
  ghost predicate AllImagesOfKept<A, B>(s: seq<A>, keep: A -> bool, f: A -> B, r: seq<B>) {
    forall k :: 0 <= k < |r| ==> ImageOfKept(s, keep, f, r[k])
  }

  lemma {:induction false} FilterMapImages<A, B>(s: seq<A>, keep: A -> bool, f: A -> B)
    ensures AllImagesOfKept(s, keep, f, FilterMap(s, keep, f))
    decreases |s|
  {
    if s != [] {
      var init := s[..|s| - 1];
      var rest := FilterMap(init, keep, f);
      var r := FilterMap(s, keep, f);
      FilterMapImages(init, keep, f);
      assert r == rest || r == rest + [f(s[|s| - 1])];
      forall k | 0 <= k < |r| ensures ImageOfKept(s, keep, f, r[k]) {
        if k < |rest| {
          assert r[k] == rest[k];
          assert ImageOfKept(init, keep, f, rest[k]);
          var i :| 0 <= i < |init| && keep(init[i]) && rest[k] == f(init[i]);
          assert s[i] == init[i];
        } else {
          assert keep(s[|s| - 1]) && r[k] == f(s[|s| - 1]);
        }
      }
    }
  }

  /** When every element passes, nothing is dropped. */
  lemma {:induction false} FilterMapKeepsAll<A, B>(s: seq<A>, keep: A -> bool, f: A -> B)
    requires forall i :: 0 <= i < |s| ==> keep(s[i])
    ensures |FilterMap(s, keep, f)| == |s|
    decreases |s|
  {
    if s != [] {
      FilterMapKeepsAll(s[..|s| - 1], keep, f);
    }
  }

  /** When no element passes, nothing is kept. */
  lemma {:induction false} FilterMapKeepsNone<A, B>(s: seq<A>, keep: A -> bool, f: A -> B)
    requires forall i :: 0 <= i < |s| ==> !keep(s[i])
    ensures FilterMap(s, keep, f) == []
    decreases |s|
  {
    if s != [] {
      FilterMapKeepsNone(s[..|s| - 1], keep, f);
    }
  }

  /** Sort best first, keep the first element of each key, cut to `n`. */
  function TopDistinct<T(==), K(==)>(s: seq<T>, score: T -> real, key: T -> K, n: nat): seq<T> {
    Take(DedupeBy(SortDesc(s, score), key), n)
  }

  /** At most `n` elements, best first, with distinct keys. */
  lemma TopDistinctShape<T, K>(s: seq<T>, score: T -> real, key: T -> K, n: nat)
    ensures var r := TopDistinct(s, score, key, n);
      |r| <= n && SortedDesc(r, score) && DistinctKeys(r, key)
  {
    var sorted := SortDesc(s, score);
    var unique := DedupeBy(sorted, key);
    var r := TopDistinct(s, score, key, n);
    SortDescSorted(s, score);
    DedupeIsSubseq(sorted, key);
    SubseqOfSorted(unique, sorted, score);
    DedupeDistinct(sorted, key);
    assert r == unique[..|r|];
  }

  /** Every element of the result is an element of the input. */
  lemma TopDistinctFromInput<T, K>(s: seq<T>, score: T -> real, key: T -> K, n: nat)
    ensures var r := TopDistinct(s, score, key, n);
      forall k :: 0 <= k < |r| ==> r[k] in multiset(s)
  {
    var sorted := SortDesc(s, score);
    var unique := DedupeBy(sorted, key);
    var r := TopDistinct(s, score, key, n);
    DedupeIsSubseq(sorted, key);
    SubseqMembers(unique, sorted);
    forall k | 0 <= k < |r| ensures r[k] in multiset(s) {
      assert r[k] == unique[k] && r[k] in sorted;
      assert r[k] in multiset(sorted);
    }
  }

  /** Ranking a filtered-and-transformed list yields only images of kept inputs. */
  lemma TopOfFilterMap<A, K>(s: seq<A>, keep: A -> bool, f: A -> A, score: A -> real, key: A -> K, n: nat)
    ensures AllImagesOfKept(s, keep, f, TopDistinct(FilterMap(s, keep, f), score, key, n))
  {
    var m := FilterMap(s, keep, f);
    var r := TopDistinct(m, score, key, n);
    TopDistinctFromInput(m, score, key, n);
    FilterMapImages(s, keep, f);
    forall k | 0 <= k < |r| ensures ImageOfKept(s, keep, f, r[k]) {
      var j :| 0 <= j < |m| && m[j] == r[k];
      assert ImageOfKept(s, keep, f, m[j]);
    }
  }

  /** A non-empty input always yields a non-empty result. */
  lemma TopDistinctNonEmpty<T, K>(s: seq<T>, score: T -> real, key: T -> K, n: nat)
    requires |s| > 0 && n > 0
    ensures |TopDistinct(s, score, key, n)| > 0
  {
    var sorted := SortDesc(s, score);
    assert |multiset(sorted)| == |multiset(s)| > 0;
    DedupeKeys(sorted, key);
    assert key(sorted[0]) in Keys(sorted, key);
  }
}
