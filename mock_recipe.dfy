/** The local reference catalog and its filter engine (mockRecipe.ts):
    `SearchRecipes` narrows a copy of the five-recipe catalog by query, time
    bucket, protein goal and ingredients, then keeps at most five. */
module MockRecipe {
  import opened Wrappers
  import opened Text
  import opened Seqs
  import opened FrontendRecipe
  import opened FilterSection

  /**
   * The five catalog entries, in catalog order. Each entry's four
   * instruction lines are left empty here: the filters never read them, and
   * their text would only weigh on every proof that mentions the catalog.
   */
  function Catalog(): (c: seq<Recipe>)
    ensures |c| == 5
  {
    [LemonHerbChicken(), TeriyakiSalmonBowl(), ChickpeaSalad(), ShrimpStirFry(), GarlicButterPasta()]
  }

  function LemonHerbChicken(): Recipe
  {
    Recipe(Some("1"), "Lemon Herb Grilled Chicken", 25,
      ["chicken breast", "lemon", "garlic", "rosemary", "olive oil"], [],
      Some("https://example.com/lemon-herb-chicken"), Some(350), Some(8.0), Some(0.023), Some(0.92),
      Some(["Ready in under 30 minutes", "High protein", "Budget-friendly"]))
  }

  function TeriyakiSalmonBowl(): Recipe
  {
    Recipe(Some("2"), "Quick Teriyaki Salmon Bowl", 18,
      ["salmon", "rice", "soy sauce", "ginger", "broccoli"], [],
      Some("https://example.com/teriyaki-salmon"), Some(550), Some(9.0), Some(0.016), Some(0.88),
      Some(["Under 20 minutes", "High protein", "Uses common ingredients"]))
  }

  function ChickpeaSalad(): Recipe
  {
    Recipe(Some("3"), "Mediterranean Chickpea Salad", 15,
      ["chickpeas", "cucumber", "tomatoes", "feta", "olives"], [],
      Some("https://example.com/chickpea-salad"), Some(200), Some(5.0), Some(0.025), Some(0.85),
      Some(["No cooking required", "Light & refreshing", "Meal prep friendly"]))
  }

  function ShrimpStirFry(): Recipe
  {
    Recipe(Some("4"), "Spicy Shrimp Stir-Fry", 20,
      ["shrimp", "bell peppers", "snap peas", "garlic", "chili flakes"], [],
      Some("https://example.com/shrimp-stirfry"), Some(450), Some(8.0), Some(0.018), Some(0.90),
      Some(["Ready in 20 minutes", "High protein", "Low carb"]))
  }

  function GarlicButterPasta(): Recipe
  {
    Recipe(Some("5"), "One-Pan Garlic Butter Pasta", 22,
      ["pasta", "garlic", "butter", "parmesan", "parsley"], [],
      Some("https://example.com/garlic-butter-pasta"), Some(180), Some(4.0), Some(0.022), Some(0.78),
      Some(["Minimal cleanup", "5 ingredients", "Comfort food"]))
  }

  const MaxResults: nat := 5

  /** Some string of `xs`, lower-cased, contains `needle`. */
  predicate SomeContains(xs: seq<string>, needle: string) {
    exists i :: 0 <= i < |xs| && Contains(Lower(xs[i]), needle)
  }

  /** The text match: `lowerQuery` occurs in the lower-cased title, in some
      ingredient or in some explanation line (an absent explanation matches nothing). */
  predicate MatchesQuery(r: Recipe, lowerQuery: string) {
    Contains(Lower(r.title), lowerQuery)
    || SomeContains(r.ingredients, lowerQuery)
    || (r.explanation.Some? && SomeContains(r.explanation.value, lowerQuery))
  }

  /** `r.protein_score || 0`. */
  function ProteinOrZero(r: Recipe): real {
    r.proteinScore.GetOr(0.0)
  }

  /** Some selected ingredient occurs, case-insensitively, in some recipe ingredient. */
  predicate AnyIngredientMatch(r: Recipe, selected: seq<string>) {
    exists k :: 0 <= k < |selected| && SomeContains(r.ingredients, Lower(selected[k]))
  }

  /** The time limit a time chip imposes; other labels impose none. */
  function TimeLimit(time: Option<string>): Option<int> {
    if time == Some("Under 20 min") then Some(20)
    else if time == Some("Under 30 min") then Some(30)
    else None
  }

  /** Every stage of the engine at once: the condition a catalog recipe must meet. */
  predicate Accepts(query: string, f: Filters, r: Recipe) {
    QueryStage(query)(r) && TimeStage(f.time)(r) && GoalStage(f.goal)(r)
    && IngredientStage(f.ingredients)(r)
  }

  // The conditions each stage filters by, and the same conditions guarded by
  // whether the stage is active (an inactive stage accepts every recipe).

  function QueryMatch(lowerQuery: string): Recipe -> bool { r => MatchesQuery(r, lowerQuery) }
  function WithinMinutes(limit: int): Recipe -> bool { (r: Recipe) => r.readyInMinutes <= limit }
  function HighProtein(): Recipe -> bool { r => ProteinOrZero(r) >= 7.0 }
  function UsesAnyOf(selected: seq<string>): Recipe -> bool { r => AnyIngredientMatch(r, selected) }

  function QueryStage(query: string): Recipe -> bool {
    r => !IsBlank(query) ==> MatchesQuery(r, Lower(query))
  }
  function TimeStage(time: Option<string>): Recipe -> bool {
    (r: Recipe) => TimeLimit(time).Some? ==> r.readyInMinutes <= TimeLimit(time).value
  }
  function GoalStage(goal: Option<string>): Recipe -> bool {
    r => goal == Some("High protein ⚡") ==> ProteinOrZero(r) >= 7.0
  }
  function IngredientStage(selected: seq<string>): Recipe -> bool {
    r => |selected| > 0 ==> AnyIngredientMatch(r, selected)
  }
  function AcceptedBy(query: string, f: Filters): Recipe -> bool {
    r => Accepts(query, f, r)
  }

  function ByQuery(rs: seq<Recipe>, query: string): seq<Recipe> {
    if !IsBlank(query) then Filter(rs, QueryMatch(Lower(query))) else rs
  }

  function ByTime(rs: seq<Recipe>, time: Option<string>): seq<Recipe> {
    if time == Some("Under 20 min") then Filter(rs, WithinMinutes(20))
    else if time == Some("Under 30 min") then Filter(rs, WithinMinutes(30))
    else rs
  }

  function ByGoal(rs: seq<Recipe>, goal: Option<string>): seq<Recipe> {
    if goal == Some("High protein ⚡") then Filter(rs, HighProtein()) else rs
  }

  function ByIngredients(rs: seq<Recipe>, selected: seq<string>): seq<Recipe> {
    if |selected| > 0 then Filter(rs, UsesAnyOf(selected)) else rs
  }

  /** The engine over an arbitrary catalog `c`: the four stages in order,
      then the first five survivors. */
  function SearchIn(c: seq<Recipe>, query: string, f: Filters): (r: seq<Recipe>)
    ensures |r| <= MaxResults
  {
    var byQuery := ByQuery(c, query);
    var byTime := ByTime(byQuery, f.time);
    var byGoal := ByGoal(byTime, f.goal);
    var byIngredients := ByIngredients(byGoal, f.ingredients);
    Take(byIngredients, MaxResults)
  }

  /** `searchRecipes(query, filters)`, run over a copy of the catalog. */
  function SearchRecipes(query: string, f: Filters): (r: seq<Recipe>)
    ensures |r| <= MaxResults
  {
    SearchIn(Catalog(), query, f)
  }

  /** Each stage is a filter by its guarded condition. */
  lemma StagesAreFilters(rs: seq<Recipe>, query: string, f: Filters)
    ensures ByQuery(rs, query) == Filter(rs, QueryStage(query))
    ensures ByTime(rs, f.time) == Filter(rs, TimeStage(f.time))
    ensures ByGoal(rs, f.goal) == Filter(rs, GoalStage(f.goal))
    ensures ByIngredients(rs, f.ingredients) == Filter(rs, IngredientStage(f.ingredients))
  {
    if IsBlank(query) { FilterAll(rs, QueryStage(query)); }
    else { FilterCongruent(rs, QueryStage(query), QueryMatch(Lower(query))); }
    if f.time == Some("Under 20 min") {
      FilterCongruent(rs, TimeStage(f.time), WithinMinutes(20));
    } else if f.time == Some("Under 30 min") {
      FilterCongruent(rs, TimeStage(f.time), WithinMinutes(30));
    } else {
      FilterAll(rs, TimeStage(f.time));
    }
    if f.goal == Some("High protein ⚡") { FilterCongruent(rs, GoalStage(f.goal), HighProtein()); }
    else { FilterAll(rs, GoalStage(f.goal)); }
    if |f.ingredients| > 0 { FilterCongruent(rs, IngredientStage(f.ingredients), UsesAnyOf(f.ingredients)); }
    else { FilterAll(rs, IngredientStage(f.ingredients)); }
  }

  function QueryTime(query: string, f: Filters): Recipe -> bool {
    r => QueryStage(query)(r) && TimeStage(f.time)(r)
  }
  function QueryTimeGoal(query: string, f: Filters): Recipe -> bool {
    r => QueryTime(query, f)(r) && GoalStage(f.goal)(r)
  }

  /** The staged pipeline is one filter by the conjunction of the stages, then truncation. */
  lemma SearchInIsOneFilter(c: seq<Recipe>, query: string, f: Filters)
    ensures SearchIn(c, query, f) == Take(Filter(c, AcceptedBy(query, f)), MaxResults)
  {
    StagesAreFilters(c, query, f);
    var s1 := Filter(c, QueryStage(query));
    StagesAreFilters(s1, query, f);
    FilterFilter(c, QueryStage(query), TimeStage(f.time), QueryTime(query, f));
    var s2 := Filter(c, QueryTime(query, f));
    StagesAreFilters(s2, query, f);
    FilterFilter(c, QueryTime(query, f), GoalStage(f.goal), QueryTimeGoal(query, f));
    var s3 := Filter(c, QueryTimeGoal(query, f));
    StagesAreFilters(s3, query, f);
    FilterFilter(c, QueryTimeGoal(query, f), IngredientStage(f.ingredients), AcceptedBy(query, f));
  }

  /** Reference definition: the engine returns exactly the catalog recipes that
      pass every stage, in catalog order (the catalog is short enough that
      truncation to five never drops one). */
  lemma SearchIsOneFilter(query: string, f: Filters)
    ensures SearchRecipes(query, f) == Filter(Catalog(), AcceptedBy(query, f))
  {
    SearchInIsOneFilter(Catalog(), query, f);
  }

  /** Over a catalog of at most five recipes, a recipe is returned exactly when
      it is in the catalog and passes every active stage. */
  lemma SearchInMembership(c: seq<Recipe>, query: string, f: Filters, r: Recipe)
    requires |c| <= MaxResults
    ensures r in SearchIn(c, query, f) <==> r in c && Accepts(query, f, r)
  {
    SearchInIsOneFilter(c, query, f);
    var s := Filter(c, AcceptedBy(query, f));
    assert Take(s, MaxResults) == s;
    if r in c && Accepts(query, f, r) {
      var k :| 0 <= k < |c| && c[k] == r;
      assert AcceptedBy(query, f)(c[k]);
      assert c[k] in s;
    }
    if r in s {
      var k :| 0 <= k < |s| && s[k] == r;
      assert AcceptedBy(query, f)(s[k]);
    }
  }

  /** A catalog recipe is returned exactly when it passes every active stage. */
  lemma SearchMembership(query: string, f: Filters, r: Recipe)
    ensures r in SearchRecipes(query, f) <==> r in Catalog() && Accepts(query, f, r)
  {
    SearchInMembership(Catalog(), query, f, r);
  }

  /** The result is the catalog with entries deleted, in catalog order. */
  lemma SearchIsSubseqOfCatalog(query: string, f: Filters)
    ensures IsSubseq(SearchRecipes(query, f), Catalog())
  {
    SearchIsOneFilter(query, f);
    FilterIsSubseq(Catalog(), AcceptedBy(query, f));
  }

  /** Every recipe the engine returns passes every active stage. */
  lemma SearchInAccepts(c: seq<Recipe>, query: string, f: Filters, r: Recipe)
    requires r in SearchIn(c, query, f)
    ensures Accepts(query, f, r)
  {
    SearchInIsOneFilter(c, query, f);
    var s := Filter(c, AcceptedBy(query, f));
    var k :| 0 <= k < |Take(s, MaxResults)| && Take(s, MaxResults)[k] == r;
    assert s[k] == r;
    assert AcceptedBy(query, f)(s[k]);
  }

  /** Every result satisfies every active filter at once. */
  lemma SearchResultsSatisfyFilters(query: string, f: Filters, r: Recipe)
    requires r in SearchRecipes(query, f)
    ensures !IsBlank(query) ==> MatchesQuery(r, Lower(query))
    ensures f.time == Some("Under 20 min") ==> r.readyInMinutes <= 20
    ensures f.time == Some("Under 30 min") ==> r.readyInMinutes <= 30
    ensures f.goal == Some("High protein ⚡") ==> ProteinOrZero(r) >= 7.0
    ensures |f.ingredients| > 0 ==> AnyIngredientMatch(r, f.ingredients)
  {
    SearchInAccepts(Catalog(), query, f, r);
    assert QueryStage(query)(r) && TimeStage(f.time)(r);
    assert GoalStage(f.goal)(r) && IngredientStage(f.ingredients)(r);
  }

  /** Over any catalog, time labels other than the two buckets, and the budget, never change the result. */
  lemma TimeAndBudgetIgnoredIn(c: seq<Recipe>, query: string, f: Filters, budget: Option<string>)
    requires f.time != Some("Under 20 min") && f.time != Some("Under 30 min")
    ensures SearchIn(c, query, f) == SearchIn(c, query, f.(time := None, budget := budget))
  {
    var g := f.(time := None, budget := budget);
    SearchInIsOneFilter(c, query, f);
    SearchInIsOneFilter(c, query, g);
    FilterCongruent(c, AcceptedBy(query, f), AcceptedBy(query, g));
  }

  /** Time labels other than the two buckets, and the budget, never change the result. */
  lemma TimeAndBudgetIgnored(query: string, f: Filters, budget: Option<string>)
    requires f.time != Some("Under 20 min") && f.time != Some("Under 30 min")
    ensures SearchRecipes(query, f) == SearchRecipes(query, f.(time := None, budget := budget))
  {
    TimeAndBudgetIgnoredIn(Catalog(), query, f, budget);
  }
}
module MockRecipeScenarios {
  import opened Wrappers
  import opened Text
  import opened Seqs
  import opened FrontendRecipe
  import opened FilterSection
  import opened MockRecipe

  /** Filtering a five-element list, spelled out element by element. */
  lemma {:induction false} FilterFive<T>(c: seq<T>, p: T -> bool)
    requires |c| == 5
    ensures Filter(c, p) == (if p(c[0]) then [c[0]] else []) + (if p(c[1]) then [c[1]] else [])
      + (if p(c[2]) then [c[2]] else []) + (if p(c[3]) then [c[3]] else []) + (if p(c[4]) then [c[4]] else [])
  {
    var c1, c2, c3, c4 := c[..1], c[..2], c[..3], c[..4];
    assert c1[..0] == [] && c2[..1] == c1 && c3[..2] == c2 && c4[..3] == c3 && c[..4] == c4;
    assert Filter(c1, p) == (if p(c[0]) then [c[0]] else []);
    assert Filter(c2, p) == Filter(c1, p) + (if p(c[1]) then [c[1]] else []);
    assert Filter(c3, p) == Filter(c2, p) + (if p(c[2]) then [c[2]] else []);
    assert Filter(c4, p) == Filter(c3, p) + (if p(c[3]) then [c[3]] else []);
    assert Filter(c, p) == Filter(c4, p) + (if p(c[4]) then [c[4]] else []);
  }

  /** With a blank query and only the "Under 20 min" chip, a recipe passes iff it takes at most 20 minutes. */
  lemma Under20Accepts(r: Recipe)
    ensures AcceptedBy("", EmptyFilters.(time := Some("Under 20 min")))(r) <==> r.readyInMinutes <= 20
  {
    assert IsBlank("");
  }

  /** The ids and cooking times of the catalog, in order. */
  lemma CatalogTimes()
    ensures var c := Catalog();
      c[0].readyInMinutes == 25 && c[1].readyInMinutes == 18 && c[2].readyInMinutes == 15
      && c[3].readyInMinutes == 20 && c[4].readyInMinutes == 22
      && c[1].id == Some("2") && c[2].id == Some("3") && c[3].id == Some("4")
  {
  }

  /** Over any five recipes taking 25, 18, 15, 20 and 22 minutes, "Under 20 min" keeps the middle three. */
  lemma Under20Of(c: seq<Recipe>)
    requires |c| == 5
    requires c[0].readyInMinutes == 25 && c[1].readyInMinutes == 18 && c[2].readyInMinutes == 15
    requires c[3].readyInMinutes == 20 && c[4].readyInMinutes == 22
    ensures Filter(c, AcceptedBy("", EmptyFilters.(time := Some("Under 20 min")))) == [c[1], c[2], c[3]]
  {
    var p := AcceptedBy("", EmptyFilters.(time := Some("Under 20 min")));
    assert !p(c[0]) by { Under20Accepts(c[0]); }
    assert p(c[1]) by { Under20Accepts(c[1]); }
    assert p(c[2]) by { Under20Accepts(c[2]); }
    assert p(c[3]) by { Under20Accepts(c[3]); }
    assert !p(c[4]) by { Under20Accepts(c[4]); }
    FilterMiddleThree(c, p);
  }

  /** Filtering five elements of which only the middle three pass. */
  lemma FilterMiddleThree<T>(c: seq<T>, p: T -> bool)
    requires |c| == 5 && !p(c[0]) && p(c[1]) && p(c[2]) && p(c[3]) && !p(c[4])
    ensures Filter(c, p) == [c[1], c[2], c[3]]
  {
    FilterFive(c, p);
  }

  /** Scenario: "Under 20 min" alone returns the 18-, 15- and 20-minute recipes (ids 2, 3, 4). */
  lemma Under20Scenario()
    ensures var r := SearchRecipes("", EmptyFilters.(time := Some("Under 20 min")));
      |r| == 3 && r[0].id == Some("2") && r[1].id == Some("3") && r[2].id == Some("4")
  {
    SearchIsOneFilter("", EmptyFilters.(time := Some("Under 20 min")));
    CatalogTimes();
    Under20Of(Catalog());
  }

  /** No letter pair `a` then `b`, case-insensitively, anywhere in `s`. */
  predicate PairFree(s: string, a: char, b: char) {
    forall k :: 0 <= k < |s| - 1 ==> LowerChar(s[k + 1]) == b ==> LowerChar(s[k]) != a
  }

  predicate AllPairFree(xs: seq<string>, a: char, b: char) {
    forall i :: 0 <= i < |xs| ==> PairFree(xs[i], a, b)
  }

  /** A text without two adjacent letters of the needle cannot contain the needle. */
  lemma PairFreeNoMatch(s: string, needle: string, j: nat)
    requires j + 1 < |needle| && PairFree(s, needle[j], needle[j + 1])
    ensures !Contains(Lower(s), needle)
  {
    var t := Lower(s);
    forall i | 0 <= i && i + |needle| <= |t|
      ensures !OccursAt(t, needle, i)
    {
      if LowerChar(s[i + j + 1]) == needle[j + 1] {
        assert t[i..i + |needle|][j] != needle[j];
      } else {
        assert t[i..i + |needle|][j + 1] != needle[j + 1];
      }
    }
    ContainsIff(t, needle);
  }

  lemma NoneContain(xs: seq<string>, needle: string, j: nat)
    requires j + 1 < |needle| && AllPairFree(xs, needle[j], needle[j + 1])
    ensures !SomeContains(xs, needle)
  {
    forall i | 0 <= i < |xs|
      ensures !Contains(Lower(xs[i]), needle)
    {
      PairFreeNoMatch(xs[i], needle, j);
    }
  }

  /** A recipe none of whose texts has the pair "hr" does not match "shrimp". */
  lemma NoShrimp(r: Recipe)
    requires PairFree(r.title, 'h', 'r') && AllPairFree(r.ingredients, 'h', 'r')
    requires r.explanation.Some? && AllPairFree(r.explanation.value, 'h', 'r')
    ensures !MatchesQuery(r, "shrimp")
  {
    PairFreeNoMatch(r.title, "shrimp", 1);
    NoneContain(r.ingredients, "shrimp", 1);
    NoneContain(r.explanation.value, "shrimp", 1);
  }

  /** With no filters set, only the query stage can reject a recipe. */
  lemma NoFiltersOnlyQuery(query: string, r: Recipe)
    requires !IsBlank(query) ==> MatchesQuery(r, Lower(query))
    ensures Accepts(query, EmptyFilters, r)
  {
  }

  /** A recipe listing "shrimp" among its ingredients matches the query "shrimp". */
  lemma ShrimpIngredientMatches(r: Recipe)
    requires "shrimp" in r.ingredients
    ensures !IsBlank("shrimp") && MatchesQuery(r, Lower("shrimp"))
  {
    var i :| 0 <= i < |r.ingredients| && r.ingredients[i] == "shrimp";
    NotBlankAt("shrimp", 0);
    OwnLowerContained(r.ingredients, i);
  }

  /** A text with a non-space character is not blank. */
  lemma NotBlankAt(s: string, i: nat)
    requires i < |s| && !IsSpace(s[i])
    ensures !IsBlank(s)
  {
    BlankIffAllSpace(s);
  }

  /** Every string of a list, lower-cased, is found among the lower-cased strings of that list. */
  lemma OwnLowerContained(xs: seq<string>, i: nat)
    requires i < |xs|
    ensures SomeContains(xs, Lower(xs[i]))
  {
    assert IsPrefix(Lower(xs[i]), Lower(xs[i]));
  }

  /** The fourth catalog recipe is the one with id 4 and lists shrimp. */
  lemma CatalogShrimp()
    ensures Catalog()[3].id == Some("4") && Catalog()[3].ingredients[0] == "shrimp"
  {
  }

  /** Scenario: the query "shrimp" with no filters returns the recipe with id 4. */
  lemma ShrimpRecipeFound()
    ensures exists r :: r in SearchRecipes("shrimp", EmptyFilters) && r.id == Some("4")
  {
    var r := Catalog()[3];
    CatalogShrimp();
    ShrimpIngredientMatches(r);
    NoFiltersOnlyQuery("shrimp", r);
    SearchMembership("shrimp", EmptyFilters, r);
  }
}
