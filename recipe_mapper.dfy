// The soft-constraint ranker: nothing is dropped for time or for missing
// ingredients; every recipe gets a score and reasons, the list is sorted best
// first, de-duplicated by title and cut to five, so any non-empty input gives
// a non-empty answer.
module RecipeMapper {
  import opened Wrappers
  import opened Text
  import opened Seqs
  import opened Dedup
  import opened StableSort
  import opened BackendRecipe
  import opened TopRanking
  import RecipeRanker

  const TimeUnknownReason := "Cooking time unknown"
  const SimpleReason := "Simple ingredient list"
  const ProteinReason := "High protein"
  const MatchReason := "Matches your ingredients"

  /** The recipe's lower-cased ingredients; empty (falsy) entries are left out. */
  function IngredientSet(r: RecipeDict): set<string> {
    set i | 0 <= i < |r.ingredients| && r.ingredients[i] != "" :: Lower(r.ingredients[i])
  }

  /** The time part: a missing time costs 2, a time within the limit earns 8, a slower one loses at most 5. */
  function TimeScore(time: Option<int>, maxTime: int): (s: real)
    ensures time.None? ==> s == -2.0
    ensures time.Some? && time.value <= maxTime ==> s == 8.0
    ensures time.Some? && time.value > maxTime ==> -5.0 <= s < 0.0
  {
    if time.None? then -2.0
    else if time.value <= maxTime then 8.0
    else -RecipeRanker.MinR((time.value - maxTime) as real / 5.0, 5.0)
  }

  function TimeReason(time: Option<int>, maxTime: int): string {
    if time.None? then TimeUnknownReason
    else if time.value <= maxTime then "Ready in " + IntToString(time.value) + " minutes"
    else "Takes " + IntToString(time.value) + " minutes"
  }

  /** Fewer ingredients score higher: 6 minus the count, never below 0, so at most 5. */
  function SimplicityScore(ings: set<string>): (s: real)
    ensures 0.0 <= s <= 5.0
  {
    if |ings| > 0 then RecipeRanker.MaxR(0.0, 6.0 - |ings| as real) else 0.0
  }

  /** 0.15 per gram of protein, at most 5. */
  function ProteinScore(protein: Option<real>): (s: real)
    ensures s <= 5.0
    ensures protein.Some? && protein.value >= 0.0 ==> s >= 0.0
  {
    if TruthyReal(protein) then RecipeRanker.MinR(protein.value * 0.15, 5.0) else 0.0
  }

  /** Five times the share of query ingredients the recipe has. */
  function MatchScore(ings: set<string>, qs: set<string>): (s: real)
    ensures 0.0 <= s <= 5.0
  {
    if qs != {} then
      SubsetCard(ings * qs, qs);
      (|ings * qs| as real) / (|qs| as real) * 5.0
    else 0.0
  }

  /** Cheaper recipes score higher, up to 4. */
  function CostScore(cost: Option<int>): (s: real)
    ensures s >= 0.0
    ensures cost.Some? && cost.value >= 0 ==> s <= 4.0
  {
    if TruthyInt(cost) then RecipeRanker.MaxR(0.0, 4.0 - cost.value as real / 150.0) else 0.0
  }

  /** The score of a recipe (unrounded). */
  function Score(r: RecipeDict, qs: set<string>, maxTime: int): real {
    var ings := IngredientSet(r);
    TimeScore(r.readyInMinutes, maxTime) + SimplicityScore(ings) + ProteinScore(r.protein)
      + MatchScore(ings, qs) + CostScore(r.estimatedCostKes)
  }

  /** The reasons, in the order the scoring steps add them. */
  function Reasons(r: RecipeDict, qs: set<string>, maxTime: int): (rs: seq<string>)
    ensures |rs| >= 1 && rs[0] == TimeReason(r.readyInMinutes, maxTime)
  {
    var ings := IngredientSet(r);
    [TimeReason(r.readyInMinutes, maxTime)]
      + (if 0 < |ings| <= 6 then [SimpleReason] else [])
      + (if TruthyReal(r.protein) then [ProteinReason] else [])
      + (if qs != {} && ings * qs != {} then [MatchReason] else [])
  }

  /** A recipe with the two fields the mapper writes. */
  function Annotate(r: RecipeDict, qs: set<string>, maxTime: int): RecipeDict {
    r.(matchScore := Some(Score(r, qs, maxTime)), reasons := Some(Reasons(r, qs, maxTime)))
  }

  function Always(): RecipeDict -> bool { r => true }
  function AnnotateBy(qs: set<string>, maxTime: int): RecipeDict -> RecipeDict { r => Annotate(r, qs, maxTime) }

  /** Reference definition: annotate all, sort, de-duplicate by title, cut to five. */
  function Ranked(recipes: seq<RecipeDict>, query: seq<string>, constraints: Option<map<string, int>>): seq<RecipeDict> {
    var qs := RecipeRanker.QuerySet(query);
    var scored := FilterMap(recipes, Always(), AnnotateBy(qs, RecipeRanker.MaxTime(constraints)));
    TopDistinct(scored, ByScore(), RecipeRanker.ByTitle(), RecipeRanker.MaxRanked)
  }

  /** The time step of the loop body: its score change and its reason. */
  method TimeStep(time: Option<int>, maxTime: int) returns (delta: real, reason: string)
    ensures delta == TimeScore(time, maxTime)
    ensures reason == TimeReason(time, maxTime)
  {
    if time.None? {
      delta := -2.0;
      reason := TimeUnknownReason;
    } else if time.value <= maxTime {
      delta := 8.0;
      reason := "Ready in " + IntToString(time.value) + " minutes";
    } else {
      var penalty := RecipeRanker.MinR((time.value - maxTime) as real / 5.0, 5.0);
      delta := -penalty;
      reason := "Takes " + IntToString(time.value) + " minutes";
    }
  }

  /** One pass of the loop body: the score and the reasons, accumulated step by step. */
  method ScoreRecipe(recipe: RecipeDict, qs: set<string>, maxTime: int) returns (score: real, reasons: seq<string>)
    ensures score == Score(recipe, qs, maxTime)
    ensures reasons == Reasons(recipe, qs, maxTime)
  {
    var ingredients := IngredientSet(recipe);
    var delta, reason := TimeStep(recipe.readyInMinutes, maxTime);
    score := delta;
    reasons := [reason];
    if |ingredients| > 0 {
      score := score + RecipeRanker.MaxR(0.0, 6.0 - |ingredients| as real);
      if |ingredients| <= 6 {
        reasons := reasons + [SimpleReason];
      }
    }
    assert score == delta + SimplicityScore(ingredients);
    if TruthyReal(recipe.protein) {
      score := score + RecipeRanker.MinR(recipe.protein.value * 0.15, 5.0);
      reasons := reasons + [ProteinReason];
    }
    assert score == delta + SimplicityScore(ingredients) + ProteinScore(recipe.protein);
    if qs != {} {
      var matched := ingredients * qs;
      score := score + (|matched| as real) / (|qs| as real) * 5.0;
      if matched != {} {
        reasons := reasons + [MatchReason];
      }
    }
    assert score == delta + SimplicityScore(ingredients) + ProteinScore(recipe.protein) + MatchScore(ingredients, qs);
    var cost := recipe.estimatedCostKes;
    if TruthyInt(cost) {
      score := score + RecipeRanker.MaxR(0.0, 4.0 - cost.value as real / 150.0);
    }
  }

  /** The mapper as the source writes it: a loop annotating every recipe, then sort, de-duplicate and cut. */
  method RankRecipes(recipes: seq<RecipeDict>, query: seq<string>, constraints: Option<map<string, int>>)
    returns (top: seq<RecipeDict>)
    ensures top == Ranked(recipes, query, constraints)
  {
    var qs := RecipeRanker.QuerySet(query);
    var maxTime := RecipeRanker.MaxTime(constraints);
    var scored: seq<RecipeDict> := [];
    var i := 0;
    while i < |recipes|
      invariant 0 <= i <= |recipes|
      invariant scored == FilterMap(recipes[..i], Always(), AnnotateBy(qs, maxTime))
    {
      FilterMapStep(recipes, i, Always(), AnnotateBy(qs, maxTime));
      var recipe := recipes[i];
      var score, reasons := ScoreRecipe(recipe, qs, maxTime);
      recipe := recipe.(matchScore := Some(score));
      recipe := recipe.(reasons := Some(reasons));
      assert recipe == AnnotateBy(qs, maxTime)(recipes[i]);
      scored := scored + [recipe];
      i := i + 1;
    }
    assert recipes[..|recipes|] == recipes;
    var sorted := SortDesc(scored, ByScore());
    var unique := Dedupe(sorted, RecipeRanker.ByTitle());
    top := Take(unique, RecipeRanker.MaxRanked);
  }

  /** At most five, best first, titles distinct, and never empty for a non-empty input. */
  lemma RankedShape(recipes: seq<RecipeDict>, query: seq<string>, constraints: Option<map<string, int>>)
    ensures var r := Ranked(recipes, query, constraints);
      |r| <= RecipeRanker.MaxRanked && SortedDesc(r, ByScore()) && DistinctKeys(r, RecipeRanker.ByTitle())
      && (|recipes| > 0 ==> |r| > 0)
  {
    var qs := RecipeRanker.QuerySet(query);
    var scored := FilterMap(recipes, Always(), AnnotateBy(qs, RecipeRanker.MaxTime(constraints)));
    TopDistinctShape(scored, ByScore(), RecipeRanker.ByTitle(), RecipeRanker.MaxRanked);
    FilterMapKeepsAll(recipes, Always(), AnnotateBy(qs, RecipeRanker.MaxTime(constraints)));
    if |recipes| > 0 {
      TopDistinctNonEmpty(scored, ByScore(), RecipeRanker.ByTitle(), RecipeRanker.MaxRanked);
    }
  }

  /** Every ranked recipe is an input recipe with only its score and reasons written. */
  lemma RankedFromInputs(recipes: seq<RecipeDict>, query: seq<string>, constraints: Option<map<string, int>>)
    ensures AllImagesOfKept(recipes, Always(),
      AnnotateBy(RecipeRanker.QuerySet(query), RecipeRanker.MaxTime(constraints)), Ranked(recipes, query, constraints))
  {
    TopOfFilterMap(recipes, Always(), AnnotateBy(RecipeRanker.QuerySet(query), RecipeRanker.MaxTime(constraints)),
      ByScore(), RecipeRanker.ByTitle(), RecipeRanker.MaxRanked);
  }

  /** The time reason is "Cooking time unknown" exactly when the time is missing. */
  lemma TimeUnknownIff(time: Option<int>, maxTime: int)
    ensures TimeReason(time, maxTime) == TimeUnknownReason <==> time.None?
  {
    if time.Some? {
      var n := IntToString(time.value);
      if time.value <= maxTime {
        assert ("Ready in " + n + " minutes")[0] != TimeUnknownReason[0];
      } else {
        assert ("Takes " + n + " minutes")[0] != TimeUnknownReason[0];
      }
    }
  }

  /** Subsets are no larger than the set they are taken from. */
  lemma SubsetCard<T>(a: set<T>, b: set<T>)
    requires a <= b
    ensures |a| <= |b|
  {
    assert b == a + (b - a);
  }

  /** A recipe holding every query ingredient gets the full match score. */
  lemma FullMatch(ings: set<string>, qs: set<string>)
    requires qs != {} && qs <= ings
    ensures MatchScore(ings, qs) == 5.0
  {
    assert ings * qs == qs;
  }

  /** No recipe scores above 27: 8 for time, 5 each for simplicity, protein and match, 4 for cost. */
  lemma ScoreAtMost(r: RecipeDict, qs: set<string>, maxTime: int)
    requires r.estimatedCostKes.Some? ==> r.estimatedCostKes.value >= 0
    ensures Score(r, qs, maxTime) <= 27.0
  {
  }
}
