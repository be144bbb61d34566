/** The recipe dictionary the backend rankers read and annotate: the
    normalised recipe's fields they use, plus the fields they write. */
module BackendRecipe {
  import opened Wrappers

  datatype RecipeDict = RecipeDict(
    title: string,
    ingredients: seq<string>,
    readyInMinutes: Option<int>,
    protein: Option<real>,
    estimatedCostKes: Option<int>,
    matchScore: Option<real>,
    explanation: Option<seq<string>>,
    reasons: Option<seq<string>>)

  /** Python truthiness of an optional number: present and non-zero. */
  predicate TruthyInt(x: Option<int>) { x.Some? && x.value != 0 }
  predicate TruthyReal(x: Option<real>) { x.Some? && x.value != 0.0 }

  /** The score a ranked recipe is sorted by. */
  function ScoreOf(r: RecipeDict): real { r.matchScore.GetOr(0.0) }

  function ByScore(): RecipeDict -> real { r => ScoreOf(r) }
}
