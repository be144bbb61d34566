// Normalisation of one Spoonacular recipe into the internal record: the
// ingredient names lower-cased, stripped, de-duplicated and sorted; the
// instructions from the analysed steps, else from the text split on '.',
// else a fixed placeholder; the cost and protein signals derived from them.
module RecipeNormalizer {
  import opened Wrappers
  import opened Text
  import opened Nutrition
  import opened CostCalculator

  const UntitledRecipe := "Untitled Recipe"
  const NoInstructions := "No instructions provided."

  datatype RawIngredient = RawIngredient(name: Option<string>)
  datatype RawStep = RawStep(step: Option<string>)
  /** One analysed-instructions block; a block without steps has none. */
  datatype Block = Block(steps: seq<RawStep>)

  /** The fields of the Spoonacular payload the normaliser reads; a missing key is `None`. */
  datatype RawRecipe = RawRecipe(
    id: Option<int>,
    title: Option<string>,
    extendedIngredients: seq<RawIngredient>,
    analyzedInstructions: seq<Block>,
    instructions: Option<string>,
    readyInMinutes: Option<int>,
    sourceUrl: Option<string>,
    image: Option<string>,
    nutrients: Option<seq<Nutrient>>,
    aggregateLikes: Option<int>)

  datatype NormalizedRecipe = NormalizedRecipe(
    id: Option<int>,
    title: string,
    ingredients: seq<string>,
    instructions: seq<string>,
    readyInMinutes: Option<int>,
    sourceUrl: Option<string>,
    image: Option<string>,
    estimatedCostKes: int,
    proteinScore: Option<real>,
    proteinPerCost: Option<real>,
    popularity: int)

  /** Python truthiness of an optional string: present and non-empty. */
  predicate HasText(s: Option<string>) { s.Some? && s.value != "" }

  // ---------- ingredients ----------

  /** A raw ingredient's name, lower-cased then stripped. */
  function NameKey(ing: RawIngredient): string
    requires HasText(ing.name)
  {
    Trim(Lower(ing.name.value))
  }

  /** The set the ingredient loop fills: every truthy name, lower-cased then stripped. */
  function NameSet(raw: seq<RawIngredient>): set<string>
    decreases |raw|
  {
    if raw == [] then {}
    else
      var last := raw[|raw| - 1];
      NameSet(raw[..|raw| - 1]) + (if HasText(last.name) then {NameKey(last)} else {})
  }

  /** `raw[i]` has a truthy name that normalises to `x`. */
  predicate NamedAs(raw: seq<RawIngredient>, i: int, x: string) {
    0 <= i < |raw| && HasText(raw[i].name) && x == NameKey(raw[i])
  }

  /** Every name in the set comes from some raw ingredient with a truthy name. */
  lemma {:induction false} NameSetSound(raw: seq<RawIngredient>, x: string)
    requires x in NameSet(raw)
    ensures exists i :: NamedAs(raw, i, x)
    decreases |raw|
  {
    var init := raw[..|raw| - 1];
    if x in NameSet(init) {
      NameSetSound(init, x);
      var i :| NamedAs(init, i, x);
      assert init[i] == raw[i];
      assert NamedAs(raw, i, x);
    } else {
      assert NamedAs(raw, |raw| - 1, x);
    }
  }

  /** Every raw ingredient with a truthy name contributes its normalised name. */
  lemma {:induction false} NameSetComplete(raw: seq<RawIngredient>, i: int)
    requires 0 <= i < |raw| && HasText(raw[i].name)
    ensures NameKey(raw[i]) in NameSet(raw)
    decreases |raw|
  {
    var init := raw[..|raw| - 1];
    if i < |init| {
      NameSetComplete(init, i);
      assert init[i] == raw[i];
    }
  }

  /** The ingredient loop. */
  method CollectNames(raw: seq<RawIngredient>) returns (names: set<string>)
    ensures names == NameSet(raw)
  {
    names := {};
    var i := 0;
    while i < |raw|
      invariant 0 <= i <= |raw|
      invariant names == NameSet(raw[..i])
    {
      assert raw[..i + 1][..i] == raw[..i];
      var name := raw[i].name;
      if HasText(name) {
        names := names + {NameKey(raw[i])};
      }
      i := i + 1;
    }
    assert raw[..|raw|] == raw;
  }

  /** Every element before every later one: sorted and free of duplicates. */
  predicate StrictlySorted(s: seq<string>) {
    forall i, j :: 0 <= i < j < |s| ==> LexLess(s[i], s[j])
  }

  /** `m` is the least element of `s`. */
  predicate IsLeast(m: string, s: set<string>) {
    m in s && forall y :: y in s && y != m ==> LexLess(m, y)
  }

  lemma {:induction false} LeastExists(s: set<string>)
    requires s != {}
    ensures exists m :: IsLeast(m, s)
    decreases |s|
  {
    var x :| x in s;
    if s - {x} == {} {
      assert s == {x};
      assert IsLeast(x, s);
    } else {
      LeastExists(s - {x});
      var m :| IsLeast(m, s - {x});
      LexLessTotal(x, m);
      if LexLess(x, m) {
        forall y | y in s && y != x
          ensures LexLess(x, y)
        {
          if y != m {
            LexLessTransitive(x, m, y);
          }
        }
        assert IsLeast(x, s);
      } else {
        assert IsLeast(m, s);
      }
    }
  }

  lemma LeastUnique(m1: string, m2: string, s: set<string>)
    requires IsLeast(m1, s) && IsLeast(m2, s)
    ensures m1 == m2
  {
    LexLessStrict(m1, m2);
  }

  /** Python's `sorted` of a set of strings: repeatedly take out the least element. */
  method SortSet(s: set<string>) returns (r: seq<string>)
    ensures StrictlySorted(r)
    ensures forall x :: x in r <==> x in s
  {
    r := [];
    var rest := s;
    while rest != {}
      invariant forall x :: x in s <==> x in r || x in rest
      invariant StrictlySorted(r)
      invariant forall i, y :: 0 <= i < |r| && y in rest ==> LexLess(r[i], y)
      decreases |rest|
    {
      LeastExists(rest);
      var m :| IsLeast(m, rest);
      r := r + [m];
      rest := rest - {m};
    }
  }

  /** A strictly sorted list is determined by its elements. */
  lemma {:induction false} SortedCanonical(a: seq<string>, b: seq<string>)
    requires StrictlySorted(a) && StrictlySorted(b)
    requires forall x :: x in a <==> x in b
    ensures a == b
    decreases |a|
  {
    if a != [] {
      assert a[0] in b;
      var elems := set x | x in a;
      assert IsLeast(a[0], elems);
      assert IsLeast(b[0], elems);
      LeastUnique(a[0], b[0], elems);
      forall x
        ensures x in a[1..] ==> x in b[1..]
        ensures x in b[1..] ==> x in a[1..]
      {
        if x in a[1..] {
          InTail(a, b, x);
        }
        if x in b[1..] {
          InTail(b, a, x);
        }
      }
      SortedCanonical(a[1..], b[1..]);
      assert a == [a[0]] + a[1..] && b == [b[0]] + b[1..];
    } else {
      forall x
        ensures multiset(b)[x] == 0
      {
        assert x !in a;
      }
      assert multiset(b) == multiset{};
      assert |b| == |multiset(b)| == 0;
    }
  }

  /** With equal heads and equal elements, a later element of one list is a later element of the other. */
  lemma InTail(a: seq<string>, b: seq<string>, x: string)
    requires StrictlySorted(a) && a != [] && b != [] && a[0] == b[0]
    requires forall y :: y in a <==> y in b
    requires x in a[1..]
    ensures x in b[1..]
  {
    var k :| 0 <= k < |a[1..]| && a[1..][k] == x;
    assert LexLess(a[0], a[k + 1]);
    LexLessStrict(a[0], x);
    assert x in b;
    var j :| 0 <= j < |b| && b[j] == x;
    assert j != 0;
    assert b[1..][j - 1] == x;
  }

  /** Insert `x` into a strictly sorted list, unless it is already there. */
  function InsertSorted(s: seq<string>, x: string): (r: seq<string>)
    requires StrictlySorted(s)
    ensures StrictlySorted(r)
    ensures forall y :: y in r <==> y in s || y == x
    decreases |s|
  {
    if s == [] then [x]
    else if s[0] == x then s
    else if LexLess(x, s[0]) then
      LexLessStrict(x, s[0]);
      assert forall j :: 0 < j < |s| ==> LexLess(s[0], s[j]);
      forall j | 0 <= j < |s| ensures LexLess(x, s[j]) {
        if j > 0 { LexLessTransitive(x, s[0], s[j]); }
      }
      [x] + s
    else
      LexLessTotal(x, s[0]);
      var t := InsertSorted(s[1..], x);
      assert forall y :: y in t ==> y in s[1..] || y == x;
      assert forall y :: y in s[1..] ==> LexLess(s[0], y);
      [s[0]] + t
  }

  /** The sorted, duplicate-free list of a sequence's elements. */
  function SortedOf(xs: seq<string>): (r: seq<string>)
    ensures StrictlySorted(r)
    ensures forall y :: y in r <==> y in xs
    decreases |xs|
  {
    if xs == [] then []
    else InsertSorted(SortedOf(xs[..|xs| - 1]), xs[|xs| - 1])
  }

  /** The normalised names in input order, with repeats. */
  function NameList(raw: seq<RawIngredient>): (r: seq<string>)
    ensures forall y :: y in r <==> y in NameSet(raw)
    decreases |raw|
  {
    if raw == [] then []
    else
      var last := raw[|raw| - 1];
      NameList(raw[..|raw| - 1]) + (if HasText(last.name) then [NameKey(last)] else [])
  }

  /** Reference definition of the ingredient list: the set's names in sorted order. */
  function Ingredients(raw: seq<RawIngredient>): (r: seq<string>)
    ensures StrictlySorted(r)
    ensures forall y :: y in r <==> y in NameSet(raw)
  {
    SortedOf(NameList(raw))
  }

  // ---------- instructions ----------

  /** The stripped texts of the truthy steps of one block, in order. */
  function StepTexts(steps: seq<RawStep>): seq<string>
    decreases |steps|
  {
    if steps == [] then []
    else
      var last := steps[|steps| - 1];
      StepTexts(steps[..|steps| - 1]) + (if HasText(last.step) then [Trim(last.step.value)] else [])
  }

  /** The step texts of all blocks, block after block. */
  function BlockTexts(blocks: seq<Block>): seq<string>
    decreases |blocks|
  {
    if blocks == [] then []
    else BlockTexts(blocks[..|blocks| - 1]) + StepTexts(blocks[|blocks| - 1].steps)
  }

  /** The inner loop: the truthy steps of one block, stripped. */
  method CollectBlock(steps: seq<RawStep>) returns (texts: seq<string>)
    ensures texts == StepTexts(steps)
  {
    texts := [];
    var k := 0;
    while k < |steps|
      invariant 0 <= k <= |steps|
      invariant texts == StepTexts(steps[..k])
    {
      assert steps[..k + 1][..k] == steps[..k];
      var text := steps[k].step;
      if HasText(text) {
        texts := texts + [Trim(text.value)];
      }
      k := k + 1;
    }
    assert steps[..|steps|] == steps;
  }

  /** The outer loop over the blocks. */
  method CollectSteps(blocks: seq<Block>) returns (instructions: seq<string>)
    ensures instructions == BlockTexts(blocks)
  {
    instructions := [];
    var b := 0;
    while b < |blocks|
      invariant 0 <= b <= |blocks|
      invariant instructions == BlockTexts(blocks[..b])
    {
      assert blocks[..b + 1][..b] == blocks[..b];
      var texts := CollectBlock(blocks[b].steps);
      instructions := instructions + texts;
      b := b + 1;
    }
    assert blocks[..|blocks|] == blocks;
  }

  /** The stripped pieces that are not blank, in order. */
  function NonBlankPieces(pieces: seq<string>): (r: seq<string>)
    ensures forall k :: 0 <= k < |r| ==> r[k] != ""
    decreases |pieces|
  {
    if pieces == [] then []
    else
      var last := Trim(pieces[|pieces| - 1]);
      NonBlankPieces(pieces[..|pieces| - 1]) + (if last != "" then [last] else [])
  }

  /** The sentences of the instructions text. */
  function Sentences(text: string): seq<string> {
    NonBlankPieces(Split(text, '.'))
  }

  /** Reference definition of the instructions: steps, else sentences, else the placeholder. */
  function Instructions(raw: RawRecipe): seq<string> {
    var steps := BlockTexts(raw.analyzedInstructions);
    var fallback := if steps == [] && HasText(raw.instructions) then Sentences(raw.instructions.value) else steps;
    if fallback == [] then [NoInstructions] else fallback
  }

  /** The instruction part of the normaliser: the steps, then the two fallbacks. */
  method ResolveInstructions(raw: RawRecipe) returns (instructions: seq<string>)
    ensures instructions == Instructions(raw)
  {
    instructions := [];
    if raw.analyzedInstructions != [] {
      instructions := CollectSteps(raw.analyzedInstructions);
    }
    assert instructions == BlockTexts(raw.analyzedInstructions);
    if instructions == [] && HasText(raw.instructions) {
      instructions := Sentences(raw.instructions.value);
    }
    if instructions == [] {
      instructions := [NoInstructions];
    }
  }

  /** The instructions are never empty, and the placeholder appears only when neither source gives any. */
  lemma InstructionsShape(raw: RawRecipe)
    ensures Instructions(raw) != []
    ensures BlockTexts(raw.analyzedInstructions) != [] ==> Instructions(raw) == BlockTexts(raw.analyzedInstructions)
    ensures Instructions(raw) == [NoInstructions] <==>
      (BlockTexts(raw.analyzedInstructions) == [] || BlockTexts(raw.analyzedInstructions) == [NoInstructions])
      && (BlockTexts(raw.analyzedInstructions) != [] || !HasText(raw.instructions)
          || Sentences(raw.instructions.value) == [] || Sentences(raw.instructions.value) == [NoInstructions])
  {
  }

  /** Every sentence taken from the text is non-empty and holds no '.'. */
  lemma {:induction false} SentencesClean(text: string)
    ensures forall k :: 0 <= k < |Sentences(text)| ==> Sentences(text)[k] != "" && '.' !in Sentences(text)[k]
  {
    NonBlankPiecesClean(Split(text, '.'));
  }

  lemma {:induction false} NonBlankPiecesClean(pieces: seq<string>)
    requires forall k :: 0 <= k < |pieces| ==> '.' !in pieces[k]
    ensures forall k :: 0 <= k < |NonBlankPieces(pieces)| ==> '.' !in NonBlankPieces(pieces)[k]
    decreases |pieces|
  {
    if pieces != [] {
      NonBlankPiecesClean(pieces[..|pieces| - 1]);
      TrimSubseq(pieces[|pieces| - 1]);
    }
  }

  /** Stripping only removes characters. */
  lemma TrimSubseq(s: string)
    ensures forall c :: c in Trim(s) ==> c in s
  {
  }

  // ---------- the record ----------

  /** Protein per shilling, when there is a protein amount and a positive cost. */
  function ProteinPerCost(protein: Option<real>, cost: int): (r: Option<real>)
    ensures r.Some? <==> protein.Some? && cost > 0
  {
    if protein.Some? && cost > 0 then Some(protein.value / cost as real) else None
  }

  /** Reference definition of the normalised record. */
  function Normalize(raw: RawRecipe): NormalizedRecipe {
    var ingredients := Ingredients(raw.extendedIngredients);
    var cost := Cost(ingredients);
    var protein := CalculateProteinScore(raw.nutrients);
    NormalizedRecipe(
      raw.id, raw.title.GetOr(UntitledRecipe), ingredients, Instructions(raw),
      raw.readyInMinutes, raw.sourceUrl, raw.image,
      cost, protein, ProteinPerCost(protein, cost), raw.aggregateLikes.GetOr(0))
  }

  /** The normaliser as the source writes it: the loops, the fallbacks, then the record. */
  method NormalizeSpoonacularRecipe(raw: RawRecipe) returns (out: NormalizedRecipe)
    ensures out == Normalize(raw)
  {
    var names := CollectNames(raw.extendedIngredients);
    var ingredients := SortSet(names);
    SortedCanonical(ingredients, Ingredients(raw.extendedIngredients));
    var instructions := ResolveInstructions(raw);
    var cost := EstimateRecipeCost(ingredients);
    var protein := CalculateProteinScore(raw.nutrients);
    var perCost := None;
    if protein.Some? && cost > 0 {
      perCost := Some(protein.value / cost as real);
    }
    out := NormalizedRecipe(
      raw.id, raw.title.GetOr(UntitledRecipe), ingredients, instructions,
      raw.readyInMinutes, raw.sourceUrl, raw.image,
      cost, protein, perCost, raw.aggregateLikes.GetOr(0));
  }

  /** Protein per cost is present exactly when there is a protein amount and at least one ingredient. */
  lemma ProteinPerCostIff(raw: RawRecipe)
    ensures var out := Normalize(raw);
      out.proteinPerCost.Some? <==> out.proteinScore.Some? && out.ingredients != []
  {
    CostBounds(Ingredients(raw.extendedIngredients));
  }

  /** The ingredient list holds no name twice. */
  lemma IngredientsDistinct(raw: RawRecipe)
    ensures var s := Normalize(raw).ingredients;
      forall i, j :: 0 <= i < |s| && 0 <= j < |s| && i != j ==> s[i] != s[j]
  {
    var s := Normalize(raw).ingredients;
    forall i, j | 0 <= i < |s| && 0 <= j < |s| && i != j
      ensures s[i] != s[j]
    {
      if i < j { LexLessStrict(s[i], s[j]); } else { LexLessStrict(s[j], s[i]); }
    }
  }
}
