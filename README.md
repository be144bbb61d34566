# Recipe search: a Dafny model

This project models the recipe search-and-filter pipeline of a recipe finder for busy professionals. The pipeline has two halves.

**The React frontend:**
- the local filter engine over a five-recipe mock catalog;
- the three search pages' `handleSearch` lifecycles, one of them with dual-key de-duplication;
- the two results panels' choice of view;
- the filter chips and the ingredient editor;
- the search bar's blank-query guard;
- the persona store and the persona banner.

**The Python backend:**
- the Spoonacular recipe normaliser;
- the cost and protein estimators;
- the intent normaliser;
- the two rankers;
- the explanation builder;
- the Spoonacular search parameters and result de-duplication;
- the LLM JSON-span extraction and keyword fallback;
- the ingredient/recipe CRUD layer, over in-memory tables.

The model has one module per source file. Shared helpers have modules of their own:
- `Wrappers`: Option and Result.
- `Text`: ASCII lower-casing, trimming, substring search, decimal rendering, code-point order, split and join.
- `Seqs`: filter, take and subsequence.
- `Dedup`: keep the first element of each key.
- `StableSort`: Python's stable `sort(reverse=True)` on a score.
- `TopRanking`: sort, de-duplicate and cut, shared by both rankers.
- `FrontendRecipe` and `BackendRecipe`: the two recipe records.

Code that updates things step by step is written as methods with loops or as classes. Each one is proved equal to a reference function, and the properties are lemmas about that function:
- the React state cells of each page (`SearchPage`, `FilteredSearchPage`, `SimpleSearchPage`);
- the persona store;
- the text boxes;
- the score and reason accumulators;
- the `seen`-set de-duplication loops;
- the normaliser's collection loops;
- the intent object;
- the database.

Expression-only code is written as functions:
- the catalog filter;
- the view selection;
- the chip toggles;
- the JSON span;
- the letter runs.

Outside inputs become parameters:
- the network answer: a `Response` or an `LlmOutcome`;
- the browser window: `hasWindow`;
- the JSON parser: `parse`;
- the API key.

## Model

| member | source | states |
|---|---|---|
| FilterSection.Toggle | ai-recipe-frontend/src/components/FilterSection.tsx:61-65 | clicking the active chip clears the field; clicking any other chip selects exactly that chip |
| FilterSection.ToggleTime | ai-recipe-frontend/src/components/FilterSection.tsx:61-65 | the time field follows the toggle rule; budget, goal and ingredients are copied unchanged |
| FilterSection.ToggleBudget | ai-recipe-frontend/src/components/FilterSection.tsx:83-87 | the budget field follows the toggle rule; the other three fields are unchanged |
| FilterSection.ToggleGoal | ai-recipe-frontend/src/components/FilterSection.tsx:105-109 | the goal field follows the toggle rule; the other three fields are unchanged |
| FilterSection.SetIngredients | ai-recipe-frontend/src/components/FilterSection.tsx:123-125 | an ingredient change replaces only the ingredient list |
| FilterSection.ToggleTwice | ai-recipe-frontend/src/components/FilterSection.tsx:64 | a double click restores the field when it was empty or held that chip; from another chip it clears the field |
| FilterSection.ToggleTimeTwice | ai-recipe-frontend/src/components/FilterSection.tsx:61-65 | clicking a time chip twice on an unset or equal field gives back the same filters |
| FilterSection.TogglesKeepChoicesValid | ai-recipe-frontend/src/components/FilterSection.tsx:20-22 | chip clicks only ever select values from the fixed option lists |
| IngredientInput.OnEnter | ai-recipe-frontend/src/components/IngredientInput.tsx:14-18 | a new list comes out exactly when the input is not blank and its trimmed lower-cased form is absent; that form is appended at the end and the old list is kept as a prefix |
| IngredientInput.Remove | ai-recipe-frontend/src/components/IngredientInput.tsx:23-25 | the removed name is gone and every other entry stays |
| IngredientInput.AddKeepsUnique | ai-recipe-frontend/src/components/IngredientInput.tsx:16-17 | adding keeps a duplicate-free list duplicate-free |
| IngredientInput.AddKeepsNormalized | ai-recipe-frontend/src/components/IngredientInput.tsx:17 | adding keeps every entry non-empty, trimmed and lower-cased |
| IngredientInput.RemoveKeepsOrder | ai-recipe-frontend/src/components/IngredientInput.tsx:24 | removal keeps the remaining entries in their order |
| IngredientInput.RemoveUndoesAdd | ai-recipe-frontend/src/components/IngredientInput.tsx:17-24 | removing the entry just added gives back the list it was added to |
| IngredientInput.IngredientField.constructor | ai-recipe-frontend/src/components/IngredientInput.tsx:11 | the text box starts empty |
| IngredientInput.IngredientField.SetInput | ai-recipe-frontend/src/components/IngredientInput.tsx:34 | typing replaces the text |
| IngredientInput.IngredientField.HandleKeyDown | ai-recipe-frontend/src/components/IngredientInput.tsx:13-21 | Enter with non-blank text produces the list OnEnter gives and clears the box even when nothing is added; any other key changes nothing |
| SearchBar.SearchCall | ai-recipe-frontend/src/components/SearchBar.tsx:17-21 | `onSearch` is called exactly for a non-blank query, with the text untrimmed |
| SearchBar.EnabledButtonSearches | ai-recipe-frontend/src/components/SearchBar.tsx:53-54 | an enabled button always leads to a call with the typed text |
| SearchBar.WhitespaceNeverSearches | ai-recipe-frontend/src/components/SearchBar.tsx:17-54 | a whitespace-only query disables the button and is never submitted |
| SearchBar.SearchBox.constructor | ai-recipe-frontend/src/components/SearchBar.tsx:12-14 | the box starts empty and not loading |
| SearchBar.SearchBox.SetQuery | ai-recipe-frontend/src/components/SearchBar.tsx:44 | typing replaces the query and leaves loading alone |
| SearchBar.SearchBox.StartSearch | ai-recipe-frontend/src/components/SearchBar.tsx:16-21 | a blank query returns with the flag unchanged; otherwise loading is on while `onSearch` runs with the untrimmed query |
| SearchBar.SearchBox.FinishSearch | ai-recipe-frontend/src/components/SearchBar.tsx:22-24 | loading is off after the call settles, and a rejection propagates |
| SearchBar.SearchBox.HandleSearch | ai-recipe-frontend/src/components/SearchBar.tsx:16-25 | a blank query does nothing; otherwise the call is made and loading is off afterwards, even when the call throws |
| SearchBar.SearchBox.HandleKeyDown | ai-recipe-frontend/src/components/SearchBar.tsx:27-31 | Enter behaves exactly like the button; any other key does nothing |
| Persona.PersonaStore.constructor | ai-recipe-frontend/src/lib/persona.ts:5-12 | the store starts with the given window flag and contents |
| Persona.PersonaStore.GetPersona | ai-recipe-frontend/src/lib/persona.ts:5-8 | gives none without a window or when the key was never set, and the stored value otherwise |
| Persona.PersonaStore.SetPersona | ai-recipe-frontend/src/lib/persona.ts:10-12 | writes only the `user_persona` key, after which GetPersona returns the value written |
| Persona.SetLeavesOtherKeys | ai-recipe-frontend/src/lib/persona.ts:3-11 | writing the persona leaves every other key and its value as it was |
| Persona.DisplayName | ai-recipe-frontend/src/components/PersonaBanner.tsx:15-22 | an unknown persona key is shown as "You" |
| Persona.BannerFor | ai-recipe-frontend/src/components/PersonaBanner.tsx:10-41 | a banner appears exactly for a stored non-empty persona; it carries the persona's display name and shows the edit button exactly when `onEdit` is given |
| Persona.DisplayNamesDistinct | ai-recipe-frontend/src/components/PersonaBanner.tsx:15-22 | the four known keys have four different names, none of them "You" |
| SearchResults.SelectView | ai-recipe-frontend/src/components/SearchResults.tsx:28-129 | loading wins, then a truthy error, then empty-after-search with the message or the fixed heading, then nothing before a search; otherwise every recipe with the banner exactly when the message mentions "broader"; the loading fact is shown only when truthy |
| SearchResults.ResultsExactlyAfterSearch | ai-recipe-frontend/src/components/SearchResults.tsx:28-112 | results are shown after a finished error-free search that found something |
| SearchResults.SelectSimpleView | ai-recipe-frontend/app/components/SearchResults.tsx:13-29 | loading, then error, then empty, else every recipe in order, with no has-searched distinction |
| SearchResults.VariantsAgreeAfterSearch | ai-recipe-frontend/app/components/SearchResults.tsx:13-29 | once a search has been made, both panels pick the same kind of view |
| MockRecipe.Catalog | ai-recipe-frontend/src/data/mockRecipe.ts:3-99 | the catalog holds five recipes, with the source's ids, titles, times, ingredients, source URLs, costs, protein and match scores, protein per cost and explanation lines |
| MockRecipe.SearchIn | ai-recipe-frontend/src/data/mockRecipe.ts:101-147 | the staged filter returns at most five recipes |
| MockRecipe.SearchRecipes | ai-recipe-frontend/src/data/mockRecipe.ts:101-147 | the search returns at most five recipes |
| MockRecipe.StagesAreFilters | ai-recipe-frontend/src/data/mockRecipe.ts:113-144 | each guarded stage filters by its own condition and passes everything through when inactive |
| MockRecipe.SearchInIsOneFilter | ai-recipe-frontend/src/data/mockRecipe.ts:110-146 | the four stages together are one filter by their conjunction, then the cut to five |
| MockRecipe.SearchIsOneFilter | ai-recipe-frontend/src/data/mockRecipe.ts:110-146 | on the five-recipe catalog the cut never drops anything |
| MockRecipe.SearchInMembership | ai-recipe-frontend/src/data/mockRecipe.ts:110-146 | over a catalog of at most five, a recipe is returned exactly when it is in the catalog and passes every active stage |
| MockRecipe.SearchMembership | ai-recipe-frontend/src/data/mockRecipe.ts:101-147 | a recipe is returned exactly when it is a catalog recipe passing every active stage |
| MockRecipe.SearchIsSubseqOfCatalog | ai-recipe-frontend/src/data/mockRecipe.ts:110-146 | the result is the catalog with entries deleted, in catalog order |
| MockRecipe.SearchInAccepts | ai-recipe-frontend/src/data/mockRecipe.ts:113-144 | every returned recipe passes every active stage |
| MockRecipe.SearchResultsSatisfyFilters | ai-recipe-frontend/src/data/mockRecipe.ts:113-144 | a result contains the untrimmed lower-cased query in its title, an ingredient or an explanation; it fits the chosen time bucket (`<=` 20 or 30); it has protein at least 7 (missing counts as 0) under the protein goal; and some ingredient contains some selected ingredient |
| MockRecipe.TimeAndBudgetIgnoredIn | ai-recipe-frontend/src/data/mockRecipe.ts:124-128 | over any catalog, time labels other than the two buckets, and the budget, never change the result |
| MockRecipe.TimeAndBudgetIgnored | ai-recipe-frontend/src/data/mockRecipe.ts:124-128 | time labels other than the two buckets, and the budget, never change the result |
| MockRecipeScenarios.FilterFive | ai-recipe-frontend/src/data/mockRecipe.ts:110 | filtering five recipes, written out element by element |
| MockRecipeScenarios.Under20Accepts | ai-recipe-frontend/src/data/mockRecipe.ts:124-125 | with no query and only "Under 20 min", a recipe passes exactly when it takes at most 20 minutes |
| MockRecipeScenarios.CatalogTimes | ai-recipe-frontend/src/data/mockRecipe.ts:3-99 | the catalog's cooking times are 25, 18, 15, 20 and 22 minutes in order, and the second to fourth recipes have ids 2, 3 and 4 |
| MockRecipeScenarios.Under20Scenario | ai-recipe-frontend/src/data/mockRecipe.ts:124-125 | "Under 20 min" alone returns exactly the recipes with ids 2, 3 and 4, the 20-minute one included |
| MockRecipeScenarios.PairFreeNoMatch | ai-recipe-frontend/src/data/mockRecipe.ts:117 | a text with no two adjacent letters of the needle does not contain the needle |
| MockRecipeScenarios.NoneContain | ai-recipe-frontend/src/data/mockRecipe.ts:118-119 | the same holds for a list of texts |
| MockRecipeScenarios.NoShrimp | ai-recipe-frontend/src/data/mockRecipe.ts:113-121 | a recipe with "hr" in none of its texts does not match the query "shrimp" |
| MockRecipeScenarios.NoFiltersOnlyQuery | ai-recipe-frontend/src/data/mockRecipe.ts:113-144 | with no filters set, only the query stage can reject a recipe |
| MockRecipeScenarios.ShrimpIngredientMatches | ai-recipe-frontend/src/data/mockRecipe.ts:118 | a recipe listing "shrimp" as an ingredient matches the query "shrimp" |
| MockRecipeScenarios.CatalogShrimp | ai-recipe-frontend/src/data/mockRecipe.ts:62-66 | the fourth catalog recipe has id 4 and lists shrimp |
| MockRecipeScenarios.ShrimpRecipeFound | ai-recipe-frontend/src/data/mockRecipe.ts:61-121 | the query "shrimp" with no filters returns the recipe with id 4 |
| IndexPage.ExtractRecipes | ai-recipe-frontend/src/pages/Index.tsx:53-55 | a non-empty `recipes` is used; otherwise `results` when present; otherwise `recipes`, else nothing |
| IndexPage.ExtractEmptyIff | ai-recipe-frontend/src/pages/Index.tsx:53-55 | the extracted list is empty exactly when neither field holds a recipe |
| IndexPage.DedupeRecipes | ai-recipe-frontend/src/pages/Index.tsx:64-78 | the two-set filter keeps exactly the first recipe of each key: the truthy id, else title plus source URL |
| IndexPage.DedupeRecipesShape | ai-recipe-frontend/src/pages/Index.tsx:66-78 | the de-duplicated list is an order-preserving subsequence, no longer than the raw list; de-duplicating again changes nothing |
| IndexPage.DedupeRecipesUnique | ai-recipe-frontend/src/pages/Index.tsx:68-77 | no two kept recipes share an id, and no two id-less ones share a backup key |
| IndexPage.IdAndBackupKeysDisjoint | ai-recipe-frontend/src/pages/Index.tsx:64-74 | a recipe without a truthy id never collides with one that has an id |
| IndexPage.SearchPage.constructor | ai-recipe-frontend/src/pages/Index.tsx:14-25 | the page's initial state |
| IndexPage.SearchPage.StartSearch | ai-recipe-frontend/src/pages/Index.tsx:28-30 | on entry, loading and searched are set and the error is cleared; nothing else changes |
| IndexPage.SearchPage.FinishSearch | ai-recipe-frontend/src/pages/Index.tsx:45-89 | a failure sets the fixed error and empties the list; a success stores the intent and message verbatim and the de-duplicated extracted recipes; loading is off in every case |
| IndexPage.SearchPage.HandleSearch | ai-recipe-frontend/src/pages/Index.tsx:27-90 | the whole handler: only the query is sent, and the final state is as FinishSearch gives it |
| HomePage.PersonaToSend | ai-recipe-frontend/src/page.tsx:31 | the stored persona, even an empty one, else "busy_professional" |
| HomePage.DefaultOnlyWhenUnset | ai-recipe-frontend/src/page.tsx:31 | the default is sent exactly when it is the stored value or nothing is stored |
| HomePage.ShownRecipes | ai-recipe-frontend/src/page.tsx:46-55 | the returned recipes, else none; a failure shows none |
| HomePage.FilteredSearchPage.constructor | ai-recipe-frontend/src/page.tsx:14-23 | the page's initial state |
| HomePage.FilteredSearchPage.StartSearch | ai-recipe-frontend/src/page.tsx:26-42 | on entry, loading and searched are set and the error is cleared; the body carries the query, the persona and the current filters |
| HomePage.FilteredSearchPage.FinishSearch | ai-recipe-frontend/src/page.tsx:46-58 | the recipes become ShownRecipes; a failure sets the fixed error; loading is off |
| HomePage.FilteredSearchPage.HandleSearch | ai-recipe-frontend/src/page.tsx:25-59 | the whole handler, with no de-duplication and no `results` fallback |
| AppHomePage.SimpleSearchPage.constructor | ai-recipe-frontend/app/page.tsx:12-14 | the page's initial state |
| AppHomePage.SimpleSearchPage.StartSearch | ai-recipe-frontend/app/page.tsx:16-33 | loading is on and the error cleared before the request; the recipes are kept; the request carries the query and the persona (default when unset) and no filters |
| AppHomePage.SimpleSearchPage.FinishSearch | ai-recipe-frontend/app/page.tsx:34-47 | the recipes become ShownRecipes; a failure sets the fixed error; loading is off |
| AppHomePage.SimpleSearchPage.HandleSearch | ai-recipe-frontend/app/page.tsx:16-57 | no filters are sent; the recipes become ShownRecipes; a failure sets the error; loading is off; the persona store is never written |
| CostCalculator.PriceOf | app/utils/cost_calculator.py:2-26 | the table price of the lower-cased name, else 50, always between 10 and 500 |
| CostCalculator.EstimateRecipeCost | app/utils/cost_calculator.py:18-29 | the loop's total is the sum of the prices |
| CostCalculator.CostBounds | app/utils/cost_calculator.py:2-29 | n ingredients cost between 10·n and 500·n, so an empty list costs 0 |
| CostCalculator.CostAppend | app/utils/cost_calculator.py:25-27 | the cost of two lists together is the sum of their costs |
| CostCalculator.CostRemove | app/utils/cost_calculator.py:25-27 | taking one ingredient out takes its price off the total |
| CostCalculator.CostPermutation | app/utils/cost_calculator.py:25-27 | the cost does not depend on the order of the ingredients |
| CostCalculator.CostIgnoresCase | app/utils/cost_calculator.py:26 | names that agree after lower-casing cost the same |
| Nutrition.FirstProtein | app/utils/nutrition_utils.py:9-13 | none exactly when no entry is named "protein" (case-insensitively); otherwise the first such entry's amount, 0 when it is missing |
| Nutrition.CalculateProteinScore | app/utils/nutrition_utils.py:1-13 | absent nutrition data gives none; otherwise the first protein amount |
| Nutrition.LaterEntriesIgnored | app/utils/nutrition_utils.py:10-11 | entries after the first protein entry never change the score |
| ExplanationBuilder.TimeReasons | app/utils/explanation_builder.py:12-17 | a time reason appears exactly for a truthy time of at most 30; it is the "Ready in just" line up to 20 and the "Quick to prepare" line above that |
| ExplanationBuilder.MatchReasons | app/utils/explanation_builder.py:20-26 | a match reason appears exactly when some recipe ingredient equals a lower-cased query ingredient |
| ExplanationBuilder.ProteinReasons | app/utils/explanation_builder.py:29-31 | the protein reason appears exactly for protein of at least 20 |
| ExplanationBuilder.CostReasons | app/utils/explanation_builder.py:34-36 | the budget reason appears exactly for a truthy cost of at most 500 |
| ExplanationBuilder.BuildExplanations | app/utils/explanation_builder.py:4-42 | the step-by-step appends give the time, match, protein and cost reasons in that order, or the fallback alone |
| ExplanationBuilder.ApplicableFirstLetters | app/utils/explanation_builder.py:12-36 | every applicable reason is a non-empty line opening with the letter of its step (R or Q for time, U for match, H for protein, B for cost), so none of them is the fallback |
| ExplanationBuilder.ExplanationsFallback | app/utils/explanation_builder.py:12-40 | one to four reasons; the fallback appears exactly when no other reason applies, and then alone |
| ExplanationBuilder.HighProteinIff | app/utils/explanation_builder.py:29-31 | the protein reason is among the explanations exactly when protein is at least 20 |
| RecipeRanker.ScoreRecipe | app/utils/recipe_ranker.py:20-62 | a recipe is kept exactly when it shares a lower-cased ingredient with the query and has no truthy time above the limit; a kept recipe gets the sum of its score parts |
| RecipeRanker.RankRecipes | app/utils/recipe_ranker.py:4-84 | the loop, sort and seen-set pass give the ranking function (limit from constraints, default 30; explanations built for "busy_professional") |
| RecipeRanker.RankedShape | app/utils/recipe_ranker.py:72-84 | at most five recipes, best score first, no two with the same lower-cased stripped title |
| RecipeRanker.RankedFromKeptInputs | app/utils/recipe_ranker.py:26-70 | every ranked recipe is an input that passed both filters, with only its score and explanation written |
| RecipeRanker.EmptyQueryRanksNothing | app/utils/recipe_ranker.py:14-27 | with no query ingredients nothing is ranked |
| RecipeMapper.TimeScore | app/api/utils/recipe_mapper.py:34-45 | a missing time scores −2; a time within the limit scores +8; a slower one loses at most 5 |
| RecipeMapper.SimplicityScore | app/api/utils/recipe_mapper.py:48-51 | the simplicity part lies between 0 and 5 |
| RecipeMapper.ProteinScore | app/api/utils/recipe_mapper.py:56-59 | the protein boost is at most 5, and not negative for a non-negative amount |
| RecipeMapper.MatchScore | app/api/utils/recipe_mapper.py:63-66 | the match part lies between 0 and 5 |
| RecipeMapper.CostScore | app/api/utils/recipe_mapper.py:71-73 | the cost part is not negative, and at most 4 for a non-negative cost |
| RecipeMapper.Reasons | app/api/utils/recipe_mapper.py:31-68 | the time reason always comes first |
| RecipeMapper.TimeStep | app/api/utils/recipe_mapper.py:34-45 | the time branch's score change and reason |
| RecipeMapper.ScoreRecipe | app/api/utils/recipe_mapper.py:24-76 | the per-recipe accumulation gives the score and the reasons |
| RecipeMapper.RankRecipes | app/api/utils/recipe_mapper.py:5-93 | the loop, sort and seen-set pass give the ranking function |
| RecipeMapper.RankedShape | app/api/utils/recipe_mapper.py:80-93 | at most five, best first, distinct titles, and never empty for a non-empty input |
| RecipeMapper.RankedFromInputs | app/api/utils/recipe_mapper.py:23-77 | every ranked recipe is an input recipe, with only its score and reasons written |
| RecipeMapper.TimeUnknownIff | app/api/utils/recipe_mapper.py:35-37 | "Cooking time unknown" is the reason exactly when the time is missing |
| RecipeMapper.FullMatch | app/api/utils/recipe_mapper.py:63-66 | a recipe holding every query ingredient gets the full 5 |
| RecipeMapper.ScoreAtMost | app/api/utils/recipe_mapper.py:33-73 | no recipe scores above 27 |
| RecipeNormalizer.NameSetSound | app/utils/recipe_normalizer.py:20-23 | every collected name comes from a raw ingredient with a truthy name |
| RecipeNormalizer.NameSetComplete | app/utils/recipe_normalizer.py:20-23 | every truthy raw name contributes its lower-cased stripped form |
| RecipeNormalizer.CollectNames | app/utils/recipe_normalizer.py:17-23 | the loop fills exactly the name set |
| RecipeNormalizer.SortSet | app/utils/recipe_normalizer.py:25 | `sorted` of the set is strictly increasing and holds exactly its members |
| RecipeNormalizer.SortedCanonical | app/utils/recipe_normalizer.py:25-60 | a strictly sorted list is determined by its elements |
| RecipeNormalizer.Ingredients | app/utils/recipe_normalizer.py:17-60 | the ingredient list is sorted, duplicate-free, and holds exactly the collected names |
| RecipeNormalizer.CollectBlock | app/utils/recipe_normalizer.py:33-36 | the inner loop gives the stripped texts of a block's truthy steps, in order |
| RecipeNormalizer.CollectSteps | app/utils/recipe_normalizer.py:30-36 | the outer loop gives the blocks' step texts, block after block |
| RecipeNormalizer.NonBlankPieces | app/utils/recipe_normalizer.py:39-43 | the kept pieces are non-empty |
| RecipeNormalizer.ResolveInstructions | app/utils/recipe_normalizer.py:28-46 | the steps, else the sentences of the text, else the placeholder |
| RecipeNormalizer.InstructionsShape | app/utils/recipe_normalizer.py:38-46 | instructions are never empty; available steps are used as they are; the placeholder appears exactly when neither source gives anything |
| RecipeNormalizer.SentencesClean | app/utils/recipe_normalizer.py:39-43 | every sentence from the text is non-empty and holds no '.' |
| RecipeNormalizer.ProteinPerCost | app/utils/recipe_normalizer.py:52-54 | present exactly when there is a protein amount and a positive cost |
| RecipeNormalizer.NormalizeSpoonacularRecipe | app/utils/recipe_normalizer.py:6-71 | the normaliser gives the reference record: the sorted names; the instructions; cost from the sorted names; protein; protein per cost; "Untitled Recipe" and 0 popularity as defaults |
| RecipeNormalizer.ProteinPerCostIff | app/utils/recipe_normalizer.py:49-54 | protein per cost is present exactly when there is a protein amount and at least one ingredient |
| RecipeNormalizer.IngredientsDistinct | app/utils/recipe_normalizer.py:18-25 | the ingredient list holds no name twice |
| IntentNormalizer.FirstUnder | app/utils/intent_normalizer.py:22 | the leftmost position where `under (\d+)` matches, or none when it matches nowhere |
| IntentNormalizer.DigitRunLength | app/utils/intent_normalizer.py:22 | the greedy `\d+`: digits up to the first non-digit |
| IntentNormalizer.UnderNumber | app/utils/intent_normalizer.py:22-24 | there is a number exactly when "under " followed by a digit occurs |
| IntentNormalizer.NormalizedTime | app/utils/intent_normalizer.py:19-24 | a truthy limit gets +5; otherwise the first "under N" gives N+5; otherwise the limit is unchanged |
| IntentNormalizer.UnderRoundTrip | app/utils/intent_normalizer.py:22-24 | "under N" written out reads back as N |
| IntentNormalizer.UnderTenScenario | app/utils/intent_normalizer.py:9-24 | "under 10" means a limit of 15 |
| IntentNormalizer.Intent.constructor | app/utils/intent_normalizer.py:4 | the intent holds the given fields |
| IntentNormalizer.Intent.Normalize | app/utils/intent_normalizer.py:11-33 | the recipe type becomes "breakfast" when the lower-cased query says so; the time limit becomes NormalizedTime; every other field is untouched |
| Spoonacular.SearchParams | app/services/spoonacular_service.py:21-37 | a missing or empty key is the "not set" error; otherwise the base parameters, with `diet` and `maxReadyTime` present exactly for truthy arguments and carrying their values |
| Spoonacular.DedupeSpoonacularResults | app/services/spoonacular_service.py:50-64 | first result per (stripped lower-cased title, ready time); an order-preserving subsequence, no longer, with distinct keys and the same key set |
| Spoonacular.DedupeResultsIdempotent | app/services/spoonacular_service.py:58-62 | de-duplicating twice is the same as once |
| Spoonacular.KeptIffFirst | app/services/spoonacular_service.py:59-62 | a result is kept when no earlier result has its key, and whatever is kept is the first of its key |
| Spoonacular.CaseAndSpaceCollapse | app/services/spoonacular_service.py:55-58 | titles differing only in case and surrounding space, with the same time, keep only the first |
| Spoonacular.DifferentTimeKept | app/services/spoonacular_service.py:55-58 | the same title with a different time is kept |
| LlmService.ExtractJsonSpan | app/services/llm_service.py:9-13 | there is a span exactly when a '{' comes before some '}', and it runs from the first '{' to the last '}'; otherwise the "No JSON object found" error |
| LlmService.SpanIsBraced | app/services/llm_service.py:10 | the span starts with '{' and ends with '}' |
| LlmService.SpanIgnoresSurroundingText | app/services/llm_service.py:10 | brace-free text around an object does not change the span |
| LlmService.SpanUnique | app/services/llm_service.py:10 | the first '{' and the last '}' are determined uniquely |
| LlmService.LetterRuns | app/services/llm_service.py:46 | the runs are non-empty and hold only ASCII letters |
| LlmService.RunsAreTheLetters | app/services/llm_service.py:46 | glued together, the runs are exactly the letters of the text, in order |
| LlmService.Fallback | app/services/llm_service.py:44-50 | the letter runs of the lower-cased query longer than 2, in order with repeats, all lower-case; every such run is kept; no constraints |
| LlmService.ParseRecipeIntent | app/services/llm_service.py:16-50 | a failed call, a reply without a span, or an unparseable span gives the fallback; otherwise the parsed span |
| LlmService.NeverRaises | app/services/llm_service.py:34-50 | the answer is always the parsed span or the fallback |
| CrudRecipe.FindName | app/crud/recipe.py:15-21 | the query finds a row exactly when the name is stored, and the row holds it |
| CrudRecipe.Lookup | app/crud/recipe.py:15-27 | the returned row holds the name; a stored name adds no row; a new name adds exactly one row at the end; unique names stay unique |
| CrudRecipe.GetOrCreateIdempotent | app/crud/recipe.py:13-27 | a second call with a name that normalises the same returns the same row and adds nothing |
| CrudRecipe.UniqueIngredientsNormalized | app/crud/recipe.py:46-50 | the names to attach are non-blank, stripped and lower-cased |
| CrudRecipe.GetOrCreateOfNormal | app/crud/recipe.py:13-69 | for an already-normal name, get-or-create is the plain lookup |
| CrudRecipe.Candidates | app/crud/recipe.py:94-103 | every listed recipe id is a stored recipe |
| CrudRecipe.CandidatesMembers | app/crud/recipe.py:94-103 | a recipe is listed exactly when it has a positive count of wanted ingredients, with that count |
| CrudRecipe.RecipesByIngredientsSpec | app/crud/recipe.py:83-105 | empty for an empty list; otherwise exactly the recipes with at least one wanted ingredient (any, not all), most matches first, each once |
| CrudRecipe.Db.constructor | app/crud/recipe.py:12-105 | the tables start empty and valid |
| CrudRecipe.Db.GetOrCreateIngredient | app/crud/recipe.py:12-27 | the stripped lower-cased name is looked up or added, as Lookup states; the other tables are untouched |
| CrudRecipe.Db.FindOrInsert | app/crud/recipe.py:15-27 | the query and the insert of a normal name, as Lookup states |
| CrudRecipe.Db.CreateRecipe | app/crud/recipe.py:34-76 | one new row with the instructions joined by spaces; every non-blank normalised ingredient is stored and linked exactly once; old names keep their rows |
| CrudRecipe.Db.AttachAll | app/crud/recipe.py:67-71 | attaching a set of names in any order links the recipe to exactly those names, adding no link twice |
| CrudRecipe.Db.AttachIngredient | app/crud/recipe.py:68-71 | get-or-create, then append the link unless it is already there |
| CrudRecipe.Db.GetRecipesByIngredients | app/crud/recipe.py:83-105 | the result is the reference grouping-and-count query, empty for an empty list |
| Dedup.DedupeIdempotent | app/services/spoonacular_service.py:50-64 | keeping the first of each key a second time changes nothing |
| StableSort.SortDescStable | app/utils/recipe_ranker.py:72 | Python's sort keeps equal-score recipes in input order |
| TopRanking.TopDistinctNonEmpty | app/api/utils/recipe_mapper.py:92-93 | a non-empty input always gives a non-empty top list |

## Left out

- Markup, styling and animation of every component: only the branch structure of the views is modelled. This covers the loading animation, recipe cards, chips and banner layout.
- Duplicate components are not part of this model, since they repeat logic already modelled: `app/components/SearchBar.tsx`, `PersonaBanner.tsx`, `RecipeCard.tsx` and `RecipeList.tsx`. The same holds for `formatCurrency` (floating-point locale formatting) and `cn` (class-name merging).
- Network I/O is not modelled. Instead:
  - each `fetch` outcome is a `Response` parameter (`Failure` stands for a non-ok status and for a thrown error alike);
  - the Ollama call is an `LlmOutcome` parameter;
  - the Spoonacular HTTP request is left out, and only its parameter map is built;
  - `json.loads` is the `parse` parameter.
- `console.log`, `console.error` and `print` are left out, being diagnostic output only.
- FastAPI routing, CORS and table creation are left out, and so are `app/db/crud.py` and the SQLAlchemy and pydantic declarations. The schemas serve only as field lists. `IntentSchema` lacks the `recipe_type` and `max_time_minutes` fields that the intent normaliser writes, and that normaliser is never called. `IntentNormalizer.Intent` therefore carries those two fields itself.
- Concurrency is not modelled, nor are stale responses of overlapping searches. Each `handleSearch` (of the three pages and of the search box) is one sequential step, split at the `await` into StartSearch and FinishSearch.
- Floating point: scores, protein and ratios are `real`, without `round(..., 2)` and with exact division.
  - RecipeRanker.ScoreRecipe, RecipeMapper.ScoreRecipe: the score is compared unrounded, so scores within 0.005 of each other may rank differently from the source.
  - RecipeNormalizer.ProteinPerCost: exact division, not rounded to 4 places.
- Case folding and whitespace are ASCII only. `toLowerCase`/`lower` change only `A`–`Z`. `trim`/`strip` remove only space, tab, newline, carriage return, vertical tab and form feed. Python's Unicode `\d` in `under (\d+)` is read as ASCII digits only.
- Python dicts are values, so the rankers' in-place writes to input dicts are modelled as fresh records: the caller does not see the same objects changed.
- `list.sort` in place is modelled as the stable insertion-sort function `StableSort.SortDesc`; equal scores keep their input order.
- The dual-key de-duplication key of `Index.tsx` is modelled as a tagged pair, so an id can never equal a backup key. A missing `source_url` becomes the text "undefined". `null` and `undefined` are not distinguished: both are `None`.
- A dict key present with a `null` value is read like a missing key. In `dedupe_spoonacular_results` the missing title reads as "" as in the source; a present-but-null title, which would raise, is not modelled.
- The "healthy" branch of `normalize_intent` does nothing and has no model beyond leaving `max_calories` untouched.
- CrudRecipe.Db.AttachAll: the set is iterated in an order the model leaves open, and links are compared as a set. The source's list order of links, which follows Python's set iteration order, is not stated.
- CrudRecipe.RecipesByIngredientsSpec: recipes with equal match counts come out in increasing id order. The source's SQL `ORDER BY count DESC` leaves that order to the database.
- The docstring of `get_recipes_by_ingredients` promises recipes with ALL the ingredients. The query returns recipes with ANY of them, and the model follows the query.
- The database session, transactions, commits and autoincrement ids are left out: ids are table positions, and each operation is one atomic update of the in-memory tables.
- Persona.PersonaStore.SetPersona: without a window the source throws on the missing `localStorage`. The model treats that as a failed write that leaves the store unchanged.
- MockRecipeScenarios.ShrimpRecipeFound: only proves that the query "shrimp" returns the recipe with id 4. That the other four recipes are excluded is left to NoShrimp, which applies to each of them once their texts are free of "hr"; evaluating those literal strings in the verifier is beyond its resource limit.
- MockRecipe.Catalog: each recipe's four instruction lines are left empty and its `image` URL is not carried (the `Recipe` record has no image field). No filter or view decision reads either, and spelling out that text as literal strings would push every proof that mentions the catalog past the verifier's resource limit.
- Python truthiness of numbers is modelled for `int` and `real` fields only: `0`, `0.0` and `None` are falsy.
