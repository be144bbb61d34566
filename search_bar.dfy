// The search box: a blank query is never submitted, and a busy flag is raised
// around the awaited `onSearch` call and dropped afterwards, even on failure.
module SearchBar {
  import opened Wrappers
  import opened Text

  /** The argument `onSearch` receives for a query, or none when the query is blank. */
  function SearchCall(query: string): (r: Option<string>)
    ensures r.Some? <==> !IsBlank(query)
    ensures r.Some? ==> r.value == query
  {
    if IsBlank(query) then None else Some(query)
  }

  /** The Search button is disabled while loading or when the query is blank. */
  predicate ButtonDisabled(isLoading: bool, query: string) {
    isLoading || IsBlank(query)
  }

  /** An enabled button always leads to an `onSearch` call with the text as typed. */
  lemma EnabledButtonSearches(isLoading: bool, query: string)
    requires !ButtonDisabled(isLoading, query)
    ensures SearchCall(query) == Some(query)
  {
  }

  /** A query made only of whitespace disables the button and is never submitted. */
  lemma {:induction false} WhitespaceNeverSearches(isLoading: bool, query: string)
    requires forall i :: 0 <= i < |query| ==> IsSpace(query[i])
    ensures ButtonDisabled(isLoading, query) && SearchCall(query) == None
  {
    BlankIffAllSpace(query);
  }

  class SearchBox {
    var query: string
    var isLoading: bool

    constructor ()
      ensures query == "" && !isLoading
    {
      query := "";
      isLoading := false;
    }

    /** Typing replaces the text. */
    method SetQuery(text: string)
      modifies this
      ensures query == text && isLoading == old(isLoading)
    {
      query := text;
    }

    /**
     * The handler up to the awaited call: a blank query returns at once;
     * otherwise the busy flag is raised and `onSearch` receives the query.
     */
    method StartSearch() returns (call: Option<string>)
      modifies this
      ensures call == SearchCall(old(query))
      ensures query == old(query)
      ensures call.Some? ==> isLoading
      ensures call.None? ==> isLoading == old(isLoading)
    {
      if IsBlank(query) {
        call := None;
        return;
      }
      isLoading := true;
      call := Some(query);
    }

    /**
     * The `finally` branch after `onSearch` settles; `fails` stands for it
     * rejecting, and the rejection propagates out of the handler.
     */
    method FinishSearch(fails: bool) returns (raised: bool)
      modifies this
      ensures !isLoading && raised == fails
      ensures query == old(query)
    {
      raised := fails;
      isLoading := false;
    }

    /**
     * The whole search handler: returns the argument `onSearch` received (if
     * it was called) and whether its rejection propagated out of the handler.
     */
    method HandleSearch(fails: bool) returns (call: Option<string>, raised: bool)
      modifies this
      ensures call == SearchCall(old(query))
      ensures query == old(query)
      ensures call.None? ==> isLoading == old(isLoading) && !raised
      ensures call.Some? ==> !isLoading && raised == fails
    {
      call := StartSearch();
      raised := false;
      if call.Some? {
        raised := FinishSearch(fails);
      }
    }

    /** Enter runs the same handler as the button; other keys do nothing. */
    method HandleKeyDown(key: string, fails: bool) returns (call: Option<string>, raised: bool)
      modifies this
      ensures key == "Enter" ==> call == SearchCall(old(query))
      ensures key == "Enter" && call.Some? ==> !isLoading && raised == fails
      ensures key == "Enter" && call.None? ==> isLoading == old(isLoading) && !raised
      ensures key != "Enter" ==> call == None && !raised && isLoading == old(isLoading)
      ensures query == old(query)
    {
      call, raised := None, false;
      if key == "Enter" {
        call, raised := HandleSearch(fails);
      }
    }
  }
}
