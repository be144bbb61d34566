/** Keep-first de-duplication by a key, the loop every result list in the
    system runs: a `seen` set and an output list, an element kept exactly
    when its key has not been seen before. */
module Dedup {
  import opened Seqs

  /** The keys of the elements of `s`. */
  function Keys<T, K>(s: seq<T>, key: T -> K): set<K> {
    set i | 0 <= i < |s| :: key(s[i])
  }

  /** Reference definition: each element is kept iff no earlier element has its key. */
  function DedupeBy<T, K(==)>(s: seq<T>, key: T -> K): (r: seq<T>)
    ensures |r| <= |s|
    decreases |s|
  {
    if s == [] then []
    else if key(s[|s| - 1]) in Keys(s[..|s| - 1], key) then DedupeBy(s[..|s| - 1], key)
    else DedupeBy(s[..|s| - 1], key) + [s[|s| - 1]]
  }

  /** Two elements: the second is dropped exactly when it repeats the first one's key. */
  lemma DedupePair<T, K>(a: T, b: T, key: T -> K)
    ensures DedupeBy([a, b], key) == if key(a) == key(b) then [a] else [a, b]
  {
    assert [a, b][..1] == [a];
    assert [a][..0] == [];
    KeysSnoc([], a, key);
    assert [] + [a] == [a];
  }

  /** No two elements share a key. */
  predicate DistinctKeys<T, K(==)>(s: seq<T>, key: T -> K) {
    forall i, j :: 0 <= i < j < |s| ==> key(s[i]) != key(s[j])
  }

  /** `s[i]` is the first element of `s` with its key. */
  predicate FirstOfKey<T, K(==)>(s: seq<T>, key: T -> K, i: int)
    requires 0 <= i < |s|
  {
    forall j :: 0 <= j < i ==> key(s[j]) != key(s[i])
  }

  lemma KeysSnoc<T, K>(s: seq<T>, x: T, key: T -> K)
    ensures Keys(s + [x], key) == Keys(s, key) + {key(x)}
  {
    var t := s + [x];
    assert forall i :: 0 <= i < |s| ==> t[i] == s[i];
    assert t[|s|] == x;
  }

  lemma {:induction false} DedupeKeys<T, K>(s: seq<T>, key: T -> K)
    ensures Keys(DedupeBy(s, key), key) == Keys(s, key)
    decreases |s|
  {
    if s != [] {
      var init := s[..|s| - 1];
      DedupeKeys(init, key);
      KeysSnoc(init, s[|s| - 1], key);
      assert init + [s[|s| - 1]] == s;
      if key(s[|s| - 1]) !in Keys(init, key) {
        KeysSnoc(DedupeBy(init, key), s[|s| - 1], key);
      }
    }
  }

  lemma {:induction false} DedupeDistinct<T, K>(s: seq<T>, key: T -> K)
    ensures DistinctKeys(DedupeBy(s, key), key)
    decreases |s|
  {
    if s != [] {
      var init := s[..|s| - 1];
      DedupeDistinct(init, key);
      if key(s[|s| - 1]) !in Keys(init, key) {
        DedupeKeys(init, key);
        var d := DedupeBy(init, key);
        var r := d + [s[|s| - 1]];
        forall i, j | 0 <= i < j < |r| ensures key(r[i]) != key(r[j]) {
          if j == |d| {
            assert key(r[i]) == key(d[i]) && key(d[i]) in Keys(d, key);
          }
        }
      }
    }
  }

  lemma {:induction false} DedupeIsSubseq<T, K>(s: seq<T>, key: T -> K)
    ensures IsSubseq(DedupeBy(s, key), s)
    decreases |s|
  {
    if s != [] {
      var init := s[..|s| - 1];
      DedupeIsSubseq(init, key);
      if key(s[|s| - 1]) in Keys(init, key) {
        SubseqExtend(DedupeBy(init, key), init, s[|s| - 1]);
        assert init + [s[|s| - 1]] == s;
      } else {
        var r := DedupeBy(s, key);
        assert r[..|r| - 1] == DedupeBy(init, key);
      }
    }
  }

  /** `x` is the first element of `s` carrying its key. */
  ghost predicate IsFirstOfItsKey<T, K>(s: seq<T>, key: T -> K, x: T) {
    exists i :: 0 <= i < |s| && s[i] == x && FirstOfKey(s, key, i)
  }

  /** Every kept element is the first input element carrying its key. */
  lemma {:induction false} DedupeKeepsFirst<T, K>(s: seq<T>, key: T -> K)
    ensures forall x :: x in DedupeBy(s, key) ==> IsFirstOfItsKey(s, key, x)
    decreases |s|
  {
    if s != [] {
      var init := s[..|s| - 1];
      DedupeKeepsFirst(init, key);
      var d := DedupeBy(init, key);
      var r := DedupeBy(s, key);
      assert r == d || r == d + [s[|s| - 1]];
      forall x | x in r
        ensures IsFirstOfItsKey(s, key, x)
      {
        if x in d {
          assert IsFirstOfItsKey(init, key, x);
          var i :| 0 <= i < |init| && init[i] == x && FirstOfKey(init, key, i);
          assert s[i] == init[i];
          assert FirstOfKey(s, key, i);
        } else {
          var n := |s| - 1;
          assert r == d + [s[n]] && x == s[n];
          forall j | 0 <= j < n ensures key(s[j]) != key(s[n]) {
            assert s[j] == init[j];
          }
          assert FirstOfKey(s, key, n);
        }
      }
    }
  }

  /** Every element that is the first of its key survives. */
  lemma {:induction false} DedupeKeepsEveryFirst<T, K>(s: seq<T>, key: T -> K, i: nat)
    requires i < |s| && FirstOfKey(s, key, i)
    ensures s[i] in DedupeBy(s, key)
    decreases |s|
  {
    var init := s[..|s| - 1];
    if i < |s| - 1 {
      assert init[i] == s[i];
      assert FirstOfKey(init, key, i);
      DedupeKeepsEveryFirst(init, key, i);
    } else {
      assert forall j :: 0 <= j < |init| ==> key(init[j]) != key(s[i]) by {
        forall j | 0 <= j < |init| ensures key(init[j]) != key(s[i]) { assert init[j] == s[j]; }
      }
    }
  }

  /** On a list whose keys are already distinct, de-duplication changes nothing. */
  lemma {:induction false} DedupeOfDistinct<T, K>(s: seq<T>, key: T -> K)
    requires DistinctKeys(s, key)
    ensures DedupeBy(s, key) == s
    decreases |s|
  {
    if s != [] {
      var init := s[..|s| - 1];
      DedupeOfDistinct(init, key);
      assert forall j :: 0 <= j < |init| ==> key(init[j]) != key(s[|s| - 1]) by {
        forall j | 0 <= j < |init| ensures key(init[j]) != key(s[|s| - 1]) { assert init[j] == s[j]; }
      }
      assert init + [s[|s| - 1]] == s;
    }
  }

  lemma DedupeIdempotent<T, K>(s: seq<T>, key: T -> K)
    ensures DedupeBy(DedupeBy(s, key), key) == DedupeBy(s, key)
  {
    DedupeDistinct(s, key);
    DedupeOfDistinct(DedupeBy(s, key), key);
  }

  /** The de-duplication loop: a `seen` set and an output list built left to right. */
  method Dedupe<T, K(==)>(s: seq<T>, key: T -> K) returns (unique: seq<T>)
    ensures unique == DedupeBy(s, key)
    ensures IsSubseq(unique, s) && DistinctKeys(unique, key)
    ensures Keys(unique, key) == Keys(s, key)
  {
    var seen: set<K> := {};
    unique := [];
    var i := 0;
    while i < |s|
      invariant 0 <= i <= |s|
      invariant seen == Keys(s[..i], key)
      invariant unique == DedupeBy(s[..i], key)
    {
      var k := key(s[i]);
      assert s[..i + 1] == s[..i] + [s[i]];
      assert s[..i + 1][..i] == s[..i];
      KeysSnoc(s[..i], s[i], key);
      if k !in seen {
        seen := seen + {k};
        unique := unique + [s[i]];
      }
      i := i + 1;
    }
    assert s[..|s|] == s;
    DedupeIsSubseq(s, key);
    DedupeDistinct(s, key);
    DedupeKeys(s, key);
  }
}
