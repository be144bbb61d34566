// The rough ingredient price table (in KES) and the cost estimate that sums
// it over a recipe's ingredient names.
module CostCalculator {
  import opened Text

  const IngredientCosts: map<string, int> := map[
    "chicken" := 400, "rice" := 200, "egg" := 30, "onion" := 20, "tomato" := 20,
    "garlic" := 10, "beans" := 150, "potato" := 30, "beef" := 500, "fish" := 450]

  /** The price of a name that is not in the table. */
  const DefaultCost := 50

  /** The cheapest and the dearest price an ingredient can have. */
  const MinPrice := 10
  const MaxPrice := 500

  /** The price of one ingredient: its lower-cased name looked up, or the default. */
  function PriceOf(name: string): (p: int)
    ensures MinPrice <= p <= MaxPrice
    ensures Lower(name) !in IngredientCosts ==> p == DefaultCost
    ensures Lower(name) in IngredientCosts ==> p == IngredientCosts[Lower(name)]
  {
    var key := Lower(name);
    if key in IngredientCosts then IngredientCosts[key] else DefaultCost
  }

  /** Reference definition: the sum of the prices. */
  function Cost(ingredients: seq<string>): int
    decreases |ingredients|
  {
    if ingredients == [] then 0
    else Cost(ingredients[..|ingredients| - 1]) + PriceOf(ingredients[|ingredients| - 1])
  }

  /** The estimate as the source computes it: a running total over the list. */
  method EstimateRecipeCost(ingredients: seq<string>) returns (total: int)
    ensures total == Cost(ingredients)
  {
    total := 0;
    var i := 0;
    while i < |ingredients|
      invariant 0 <= i <= |ingredients|
      invariant total == Cost(ingredients[..i])
    {
      assert ingredients[..i + 1][..i] == ingredients[..i];
      total := total + PriceOf(ingredients[i]);
      i := i + 1;
    }
    assert ingredients[..|ingredients|] == ingredients;
  }

  /** Every ingredient costs between the cheapest and the dearest table price. */
  lemma {:induction false} CostBounds(ingredients: seq<string>)
    ensures MinPrice * |ingredients| <= Cost(ingredients) <= MaxPrice * |ingredients|
    decreases |ingredients|
  {
    if ingredients != [] {
      CostBounds(ingredients[..|ingredients| - 1]);
    }
  }

  /** The cost of two lists together is the sum of their costs. */
  lemma {:induction false} CostAppend(a: seq<string>, b: seq<string>)
    ensures Cost(a + b) == Cost(a) + Cost(b)
    decreases |b|
  {
    if b != [] {
      var b' := b[..|b| - 1];
      assert (a + b)[..|a + b| - 1] == a + b';
      CostAppend(a, b');
    } else {
      assert a + b == a;
    }
  }

  /** Taking one element out of the list takes its price off the total. */
  lemma CostRemove(s: seq<string>, i: nat)
    requires i < |s|
    ensures Cost(s) == PriceOf(s[i]) + Cost(s[..i] + s[i + 1..])
  {
    var pre, x, post := s[..i], s[i], s[i + 1..];
    SplitAround(s, i);
    CostAppend(pre + [x], post);
    CostAppend(pre, [x]);
    CostAppend(pre, post);
    CostOne(x);
  }

  /** A list is the part before position `i`, the element there, and the part after it. */
  lemma SplitAround<T>(s: seq<T>, i: nat)
    requires i < |s|
    ensures s == (s[..i] + [s[i]]) + s[i + 1..]
  {
    assert s[i..] == [s[i]] + s[i + 1..];
    assert s == s[..i] + s[i..];
  }

  /** One ingredient costs its price. */
  lemma CostOne(x: string)
    ensures Cost([x]) == PriceOf(x)
  {
    assert [x][..0] == [];
  }

  /** The cost does not depend on the order of the ingredients. */
  lemma {:induction false} CostPermutation(a: seq<string>, b: seq<string>)
    requires multiset(a) == multiset(b)
    ensures Cost(a) == Cost(b)
    decreases |a|
  {
    if a != [] {
      var i := MatchLast(a, b);
      CostPermutation(a[..|a| - 1], b[..i] + b[i + 1..]);
      CostRemove(b, i);
    } else {
      assert |b| == |multiset(b)| == 0;
    }
  }

  /** For a permutation `b` of a non-empty `a`, a position of `b` holding the last element of
      `a`, such that the rest of `a` is a permutation of the rest of `b`. */
  lemma MatchLast<T>(a: seq<T>, b: seq<T>) returns (i: nat)
    requires a != [] && multiset(a) == multiset(b)
    ensures i < |b| && b[i] == a[|a| - 1]
    ensures multiset(a[..|a| - 1]) == multiset(b[..i] + b[i + 1..])
  {
    var x := a[|a| - 1];
    assert a == a[..|a| - 1] + [x];
    assert x in multiset(b);
    i :| 0 <= i < |b| && b[i] == x;
    assert b == b[..i] + [x] + b[i + 1..];
    assert multiset(b[..i] + b[i + 1..]) == multiset(b) - multiset{x};
    assert multiset(a[..|a| - 1]) == multiset(a) - multiset{x};
  }

  /** Names that agree after lower-casing cost the same: the lookup ignores case. */
  lemma {:induction false} CostIgnoresCase(a: seq<string>, b: seq<string>)
    requires |a| == |b|
    requires forall i :: 0 <= i < |a| ==> Lower(a[i]) == Lower(b[i])
    ensures Cost(a) == Cost(b)
    decreases |a|
  {
    if a != [] {
      CostIgnoresCase(a[..|a| - 1], b[..|b| - 1]);
    }
  }
}
