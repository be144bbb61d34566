// The hard-filter ranker: recipes sharing no ingredient with the query, or
// too slow, are dropped; the rest are scored, annotated with a score and an
// explanation, sorted best first, de-duplicated by title and cut to five.
module RecipeRanker {
  import opened Wrappers
  import opened Text
  import opened Seqs
  import opened Dedup
  import opened StableSort
  import opened BackendRecipe
  import opened ExplanationBuilder
  import opened TopRanking

  const DefaultMaxTime := 30
  const MaxRanked := 5

  /** The lower-cased query ingredients. */
  function QuerySet(query: seq<string>): set<string> {
    set j | 0 <= j < |query| :: Lower(query[j])
  }

  /** The recipe's lower-cased ingredients. */
  function IngredientSet(r: RecipeDict): set<string> {
    set i | 0 <= i < |r.ingredients| :: Lower(r.ingredients[i])
  }

  /** `max_time` from the constraints when they are given (non-empty), else 30. */
  function MaxTime(constraints: Option<map<string, int>>): int {
    if constraints.Some? && |constraints.value| > 0 && "max_time" in constraints.value
    then constraints.value["max_time"] else DefaultMaxTime
  }

  /** The hard filters: some shared ingredient, and no truthy time above the limit. */
  predicate Keep(r: RecipeDict, qs: set<string>, maxTime: int) {
    IngredientSet(r) * qs != {} && !(TruthyInt(r.readyInMinutes) && r.readyInMinutes.value > maxTime)
  }

  function MaxR(a: real, b: real): real { if a >= b then a else b }
  function MinR(a: real, b: real): real { if a <= b then a else b }

  /**
   * The score of a kept recipe (unrounded). A kept recipe shares an
   * ingredient with the query, so the query set is never empty when the
   * ratio is taken; the guard only keeps the division defined.
   */
  function Score(r: RecipeDict, qs: set<string>): real {
    var ings := IngredientSet(r);
    var time := r.readyInMinutes;
    var timeScore := if TruthyInt(time) then MaxR(0.0, 12.0 - time.value as real / 4.0) else 0.0;
    var simplicity := if |ings| > 0 then MaxR(0.0, 8.0 - |ings| as real) else 0.0;
    var proteinScore := if TruthyReal(r.protein) then MinR(r.protein.value * 0.15, 6.0) else 0.0;
    var matchScore := if qs == {} then 0.0 else (|ings * qs| as real) / (|qs| as real) * 5.0;
    var cost := r.estimatedCostKes;
    var costScore := if TruthyInt(cost) then MaxR(0.0, 5.0 - cost.value as real / 100.0) else 0.0;
    timeScore + simplicity + proteinScore + matchScore + costScore
  }

  /**
   * A kept recipe with the two fields the ranker writes: its score and its
   * explanation (built for the fixed persona, so the persona plays no part).
   */
  function Annotate(r: RecipeDict, query: seq<string>): RecipeDict {
    var scored := r.(matchScore := Some(Score(r, QuerySet(query))));
    scored.(explanation := Some(Explanations(scored, query)))
  }

  function KeptBy(query: seq<string>, maxTime: int): RecipeDict -> bool { r => Keep(r, QuerySet(query), maxTime) }
  function AnnotateBy(query: seq<string>): RecipeDict -> RecipeDict { r => Annotate(r, query) }

  function TitleKey(r: RecipeDict): string { Trim(Lower(r.title)) }
  function ByTitle(): RecipeDict -> string { r => TitleKey(r) }

  /** Reference definition of the ranking: filter and score, sort, de-duplicate, cut. */
  function Ranked(recipes: seq<RecipeDict>, query: seq<string>, constraints: Option<map<string, int>>): seq<RecipeDict> {
    var scored := FilterMap(recipes, KeptBy(query, MaxTime(constraints)), AnnotateBy(query));
    TopDistinct(scored, ByScore(), ByTitle(), MaxRanked)
  }

  /** One pass of the loop body: whether the recipe survives the filters, and its score. */
  method ScoreRecipe(recipe: RecipeDict, qs: set<string>, maxTime: int) returns (keep: bool, score: real)
    ensures keep == Keep(recipe, qs, maxTime)
    ensures keep ==> score == Score(recipe, qs)
  {
    var ingredients := IngredientSet(recipe);
    var matched := ingredients * qs;
    keep := matched != {};
    score := 0.0;
    if !keep {
      return;
    }
    var time := recipe.readyInMinutes;
    if TruthyInt(time) {
      if time.value > maxTime {
        keep := false;
        return;
      }
      score := score + MaxR(0.0, 12.0 - time.value as real / 4.0);
    }
    if |ingredients| > 0 {
      score := score + MaxR(0.0, 8.0 - |ingredients| as real);
    }
    if TruthyReal(recipe.protein) {
      score := score + MinR(recipe.protein.value * 0.15, 6.0);
    }
    score := score + (|matched| as real) / (|qs| as real) * 5.0;
    var cost := recipe.estimatedCostKes;
    if TruthyInt(cost) {
      score := score + MaxR(0.0, 5.0 - cost.value as real / 100.0);
    }
  }

  /** The ranker as the source writes it: a loop collecting kept recipes, then sort, de-duplicate and cut. */
  method RankRecipes(recipes: seq<RecipeDict>, query: seq<string>, constraints: Option<map<string, int>>,
                     persona: string) returns (top: seq<RecipeDict>)
    ensures top == Ranked(recipes, query, constraints)
  {
    var qs := QuerySet(query);
    var maxTime := MaxTime(constraints);
    var scored: seq<RecipeDict> := [];
    var i := 0;
    while i < |recipes|
      invariant 0 <= i <= |recipes|
      invariant scored == FilterMap(recipes[..i], KeptBy(query, maxTime), AnnotateBy(query))
    {
      assert recipes[..i + 1][..i] == recipes[..i];
      var recipe := recipes[i];
      var keep, score := ScoreRecipe(recipe, qs, maxTime);
      if keep {
        recipe := recipe.(matchScore := Some(score));
        var explanation := BuildExplanations(recipe, query, "busy_professional");
        recipe := recipe.(explanation := Some(explanation));
        scored := scored + [recipe];
      }
      i := i + 1;
    }
    assert recipes[..|recipes|] == recipes;
    var sorted := SortDesc(scored, ByScore());
    var unique := Dedupe(sorted, ByTitle());
    top := Take(unique, MaxRanked);
  }

  /** The ranking has at most five recipes, best score first, no two with the same lower-cased stripped title. */
  lemma RankedShape(recipes: seq<RecipeDict>, query: seq<string>, constraints: Option<map<string, int>>)
    ensures var r := Ranked(recipes, query, constraints);
      |r| <= MaxRanked && SortedDesc(r, ByScore()) && DistinctKeys(r, ByTitle())
  {
    var scored := FilterMap(recipes, KeptBy(query, MaxTime(constraints)), AnnotateBy(query));
    TopDistinctShape(scored, ByScore(), ByTitle(), MaxRanked);
  }

  /**
   * Every ranked recipe is an input recipe that passed the filters, with
   * only its score and explanation written.
   */
  lemma RankedFromKeptInputs(recipes: seq<RecipeDict>, query: seq<string>, constraints: Option<map<string, int>>)
    ensures AllImagesOfKept(recipes, KeptBy(query, MaxTime(constraints)), AnnotateBy(query), Ranked(recipes, query, constraints))
  {
    TopOfFilterMap(recipes, KeptBy(query, MaxTime(constraints)), AnnotateBy(query), ByScore(), ByTitle(), MaxRanked);
  }

  /** With no query ingredients, nothing shares an ingredient with the query, so nothing is ranked. */
  lemma EmptyQueryRanksNothing(recipes: seq<RecipeDict>, constraints: Option<map<string, int>>)
    ensures Ranked(recipes, [], constraints) == []
  {
    assert QuerySet([]) == {};
    FilterMapKeepsNone(recipes, KeptBy([], MaxTime(constraints)), AnnotateBy([]));
  }
}
