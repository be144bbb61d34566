// The simpler search page: loading, error and the recipe list, a request
// carrying the query and the persona only, and a persona store it never
// writes (the nested handler that would write it is never called).
module AppHomePage {
  import opened Wrappers
  import opened FrontendRecipe
  import opened Persona
  import opened HomePage

  class SimpleSearchPage {
    var recipes: seq<Recipe>
    var loading: bool
    var error: Option<string>

    constructor ()
      ensures recipes == [] && !loading && error == None
    {
      recipes := [];
      loading := false;
      error := None;
    }

    /** The handler up to the request: loading on, error cleared; returns the request body. */
    method StartSearch(query: string, store: PersonaStore) returns (request: Request)
      modifies this
      ensures loading && error == None && recipes == old(recipes)
      ensures request == Request(query, PersonaToSend(store.GetPersona()), None)
      ensures unchanged(store)
    {
      loading := true;
      error := None;
      var persona := PersonaToSend(store.GetPersona());
      request := Request(query, persona, None);
    }

    /** The handler after the request settles: the recipes shown, the error on failure, loading off. */
    method FinishSearch(response: Response)
      modifies this
      ensures !loading
      ensures recipes == ShownRecipes(response)
      ensures error == (if response.Failure? then Some(FetchError) else old(error))
    {
      if response.Failure? {
        error := Some(FetchError);
        recipes := [];
      } else {
        recipes := response.recipes.GetOr([]);
      }
      // the `finally` branch
      loading := false;
    }

    /**
     * The whole handler, with the backend's answer as a parameter: the request
     * sent, the state after it settles, and a persona store left as it was.
     */
    method HandleSearch(query: string, store: PersonaStore, response: Response) returns (request: Request)
      modifies this
      ensures request == Request(query, PersonaToSend(store.GetPersona()), None)
      ensures !loading
      ensures recipes == ShownRecipes(response)
      ensures error == (if response.Failure? then Some(FetchError) else None)
      ensures unchanged(store)
    {
      request := StartSearch(query, store);
      FinishSearch(response);
    }
  }
}
