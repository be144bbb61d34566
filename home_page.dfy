// The filter-aware search page: its handler sends the query, the stored
// persona (or the default one) and the current filters, and shows the
// returned list as is.
module HomePage {
  import opened Wrappers
  import opened FrontendRecipe
  import opened FilterSection
  import opened Persona

  const DefaultPersona := "busy_professional"
  const FetchError := "Failed to fetch recipes. Is the backend running?"

  /** The request body; the simpler page sends no filters. */
  datatype Request = Request(query: string, persona: string, filters: Option<Filters>)

  /** The outcome of the request: a non-ok status or any thrown error is a `Failure`. */
  datatype Response = Failure | Success(recipes: Option<seq<Recipe>>)

  /** The persona sent: the stored one when there is one (even ""), else the default. */
  function PersonaToSend(stored: Option<string>): (p: string)
    ensures stored.Some? ==> p == stored.value
    ensures stored.None? ==> p == DefaultPersona
  {
    stored.GetOr(DefaultPersona)
  }

  /** A stored persona always wins over the default: the default is sent only when it is stored or nothing is. */
  lemma DefaultOnlyWhenUnset(stored: Option<string>)
    ensures PersonaToSend(stored) == DefaultPersona <==> stored.None? || stored.value == DefaultPersona
  {
  }

  /** The recipes shown after a response: the returned list, or none after a failure. */
  function ShownRecipes(response: Response): (r: seq<Recipe>)
    ensures response.Success? && response.recipes.Some? ==> r == response.recipes.value
    ensures response.Failure? || response.recipes.None? ==> r == []
  {
    if response.Success? then response.recipes.GetOr([]) else []
  }

  class FilteredSearchPage {
    var filters: Filters
    var recipes: seq<Recipe>
    var isLoading: bool
    var hasSearched: bool
    var error: Option<string>

    constructor ()
      ensures filters == EmptyFilters && recipes == [] && !isLoading && !hasSearched && error == None
    {
      filters := EmptyFilters;
      recipes := [];
      isLoading := false;
      hasSearched := false;
      error := None;
    }

    /** The handler up to the request: loading, searched, error cleared; returns the request body. */
    method StartSearch(query: string, store: PersonaStore) returns (request: Request)
      modifies this
      ensures isLoading && hasSearched && error == None
      ensures recipes == old(recipes) && filters == old(filters)
      ensures request == Request(query, PersonaToSend(store.GetPersona()), Some(filters))
    {
      isLoading := true;
      hasSearched := true;
      error := None;
      var persona := PersonaToSend(store.GetPersona());
      request := Request(query, persona, Some(filters));
    }

    /** The handler after the request settles. */
    method FinishSearch(response: Response)
      modifies this
      ensures !isLoading && hasSearched == old(hasSearched) && filters == old(filters)
      ensures recipes == ShownRecipes(response)
      ensures error == (if response.Failure? then Some(FetchError) else old(error))
    {
      if response.Failure? {
        error := Some(FetchError);
        recipes := [];
      } else {
        recipes := response.recipes.GetOr([]);
      }
      // the `finally` branch
      isLoading := false;
    }

    /** The whole handler, with the backend's answer as a parameter. */
    method HandleSearch(query: string, store: PersonaStore, response: Response) returns (request: Request)
      modifies this
      ensures request == Request(query, PersonaToSend(store.GetPersona()), Some(old(filters)))
      ensures !isLoading && hasSearched && filters == old(filters)
      ensures recipes == ShownRecipes(response)
      ensures error == (if response.Failure? then Some(FetchError) else None)
    {
      request := StartSearch(query, store);
      FinishSearch(response);
    }
  }
}
