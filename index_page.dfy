// The search page that talks to the backend without filters: its search
// handler, the extraction of the recipe list from the response body, and the
// defensive de-duplication by id, or by title and source URL when the id is
// missing.
module IndexPage {
  import opened Wrappers
  import opened Seqs
  import opened Dedup
  import opened FrontendRecipe
  import opened FilterSection

  const FetchError := "Failed to fetch recipes. Is the backend running?"

  /** The fields of the response body the page reads; `parsedIntent` is kept as its JSON text. */
  datatype Body = Body(recipes: Option<seq<Recipe>>, results: Option<seq<Recipe>>,
                       parsedIntent: Option<string>, message: Option<string>)

  /** The outcome of the request: a non-ok status or any thrown error is a `Failure`. */
  datatype Response = Failure | Success(body: Body)

  /**
   * The raw recipe list: `recipes` when it is non-empty, else `results` when
   * present (an empty array is still truthy), else `recipes`, else nothing.
   */
  function ExtractRecipes(b: Body): (r: seq<Recipe>)
    ensures b.recipes.Some? && |b.recipes.value| > 0 ==> r == b.recipes.value
    ensures (b.recipes.None? || b.recipes.value == []) && b.results.Some? ==> r == b.results.value
    ensures b.recipes.None? && b.results.None? ==> r == []
  {
    if b.recipes.Some? && |b.recipes.value| > 0 then b.recipes.value
    else if b.results.Some? then b.results.value
    else if b.recipes.Some? then b.recipes.value
    else []
  }

  /** The list comes out empty exactly when neither field holds a recipe. */
  lemma ExtractEmptyIff(b: Body)
    ensures ExtractRecipes(b) == [] <==>
      (b.recipes.None? || b.recipes.value == []) && (b.results.None? || b.results.value == [])
  {
  }

  /** The de-duplication key: the id when it is truthy, else the title and source URL. */
  datatype RecipeKey = ById(id: string) | ByBackup(backup: string)

  /** The fallback key; a missing source URL is interpolated as the text "undefined". */
  function BackupKey(r: Recipe): string {
    r.title + "-" + (if r.sourceUrl.Some? then r.sourceUrl.value else "undefined")
  }

  function DualKey(r: Recipe): RecipeKey {
    if Truthy(r.id) then ById(r.id.value) else ByBackup(BackupKey(r))
  }

  function KeyOf(): Recipe -> RecipeKey { r => DualKey(r) }

  /**
   * The filter with its two seen-sets, one for ids and one for fallback keys.
   * It keeps exactly the recipes the single-key reference definition keeps.
   */
  method DedupeRecipes(raw: seq<Recipe>) returns (unique: seq<Recipe>)
    ensures unique == DedupeBy(raw, KeyOf())
  {
    var seenIds: set<string> := {};
    var seenBackups: set<string> := {};
    unique := [];
    var i := 0;
    while i < |raw|
      invariant 0 <= i <= |raw|
      invariant forall id :: id in seenIds <==> ById(id) in Keys(raw[..i], KeyOf())
      invariant forall b :: b in seenBackups <==> ByBackup(b) in Keys(raw[..i], KeyOf())
      invariant unique == DedupeBy(raw[..i], KeyOf())
    {
      var r := raw[i];
      assert raw[..i + 1] == raw[..i] + [r];
      assert raw[..i + 1][..i] == raw[..i];
      KeysSnoc(raw[..i], r, KeyOf());
      if Truthy(r.id) {
        if r.id.value !in seenIds {
          seenIds := seenIds + {r.id.value};
          unique := unique + [r];
        }
      } else {
        var backup := BackupKey(r);
        if backup !in seenBackups {
          seenBackups := seenBackups + {backup};
          unique := unique + [r];
        }
      }
      i := i + 1;
    }
    assert raw[..|raw|] == raw;
  }

  /**
   * The de-duplicated list is an order-preserving subsequence of the raw
   * list, and a second pass removes nothing more.
   */
  lemma DedupeRecipesShape(raw: seq<Recipe>)
    ensures var u := DedupeBy(raw, KeyOf());
      IsSubseq(u, raw) && |u| <= |raw| && DedupeBy(u, KeyOf()) == u
  {
    DedupeIsSubseq(raw, KeyOf());
    DedupeIdempotent(raw, KeyOf());
  }

  /**
   * No two kept recipes share a truthy id, and no two id-less kept recipes
   * share a fallback key.
   */
  lemma DedupeRecipesUnique(raw: seq<Recipe>)
    ensures var u := DedupeBy(raw, KeyOf());
      (forall i, j :: 0 <= i < j < |u| && Truthy(u[i].id) && Truthy(u[j].id) ==> u[i].id != u[j].id)
      && (forall i, j :: 0 <= i < j < |u| && !Truthy(u[i].id) && !Truthy(u[j].id) ==> BackupKey(u[i]) != BackupKey(u[j]))
  {
    var u := DedupeBy(raw, KeyOf());
    DedupeDistinct(raw, KeyOf());
    forall i, j | 0 <= i < j < |u| ensures DualKey(u[i]) != DualKey(u[j]) {
      assert KeyOf()(u[i]) != KeyOf()(u[j]);
    }
  }

  /** A recipe without a truthy id never counts as a duplicate of one that has one. */
  lemma IdAndBackupKeysDisjoint(a: Recipe, b: Recipe)
    requires Truthy(a.id) && !Truthy(b.id)
    ensures DualKey(a) != DualKey(b)
  {
  }

  /** The page's state cells. */
  class SearchPage {
    var filters: Filters
    var recipes: seq<Recipe>
    var isLoading: bool
    var hasSearched: bool
    var error: Option<string>
    var parsedIntent: Option<string>
    var message: Option<string>

    constructor ()
      ensures filters == EmptyFilters && recipes == [] && !isLoading && !hasSearched
      ensures error == None && parsedIntent == None && message == None
    {
      filters := EmptyFilters;
      recipes := [];
      isLoading := false;
      hasSearched := false;
      error := None;
      parsedIntent := None;
      message := None;
    }

    /** The handler up to the request: loading, searched, error cleared. */
    method StartSearch()
      modifies this
      ensures isLoading && hasSearched && error == None
      ensures recipes == old(recipes) && filters == old(filters)
      ensures parsedIntent == old(parsedIntent) && message == old(message)
    {
      isLoading := true;
      hasSearched := true;
      error := None;
    }

    /** The handler after the request settles. */
    method FinishSearch(response: Response)
      modifies this
      ensures !isLoading && hasSearched == old(hasSearched) && filters == old(filters)
      ensures response.Failure? ==>
        error == Some(FetchError) && recipes == [] && parsedIntent == old(parsedIntent) && message == old(message)
      ensures response.Success? ==> error == old(error)
      ensures response.Success? ==> parsedIntent == response.body.parsedIntent && message == response.body.message
      ensures response.Success? ==> recipes == DedupeBy(ExtractRecipes(response.body), KeyOf())
    {
      if response.Failure? {
        error := Some(FetchError);
        recipes := [];
      } else {
        var raw := ExtractRecipes(response.body);
        parsedIntent := response.body.parsedIntent;
        message := response.body.message;
        var unique := DedupeRecipes(raw);
        recipes := unique;
      }
      // the `finally` branch
      isLoading := false;
    }

    /**
     * The whole handler for `query`, with the backend's answer as a parameter.
     * Returns the request body's only field, the query; filters are not sent.
     */
    method HandleSearch(query: string, response: Response) returns (sentQuery: string)
      modifies this
      ensures sentQuery == query
      ensures !isLoading && hasSearched && filters == old(filters)
      ensures response.Failure? ==>
        error == Some(FetchError) && recipes == [] && parsedIntent == old(parsedIntent) && message == old(message)
      ensures response.Success? ==> error == None
      ensures response.Success? ==> parsedIntent == response.body.parsedIntent && message == response.body.message
      ensures response.Success? ==> recipes == DedupeBy(ExtractRecipes(response.body), KeyOf())
    {
      StartSearch();
      sentQuery := query;
      FinishSearch(response);
    }
  }
}
