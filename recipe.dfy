/** The recipe record the frontend receives from the backend or holds in its
    local catalog (the `Recipe` interface). The image and the optional price
    per serving, calories and dietary tags, which nothing in this model reads
    or decides, are not modelled. */
module FrontendRecipe {
  import opened Wrappers

  datatype Recipe = Recipe(
    id: Option<string>,
    title: string,
    readyInMinutes: int,
    ingredients: seq<string>,
    instructions: seq<string>,
    sourceUrl: Option<string>,
    estimatedCostKes: Option<int>,
    proteinScore: Option<real>,
    proteinPerCost: Option<real>,
    matchScore: Option<real>,
    explanation: Option<seq<string>>)

  /** JavaScript truthiness of an optional string: present and non-empty. */
  predicate Truthy(s: Option<string>) {
    s.Some? && s.value != ""
  }
}
