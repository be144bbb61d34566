// Which view the results panel shows, for both variants of the component:
// the full one (loading fact, "has searched" flag, advisory banner) and the
// simpler one that only distinguishes loading, error, empty and results.
module SearchResults {
  import opened Wrappers
  import opened Text
  import opened FrontendRecipe

  const NoMatchHeading := "No recipes matched your search"

  datatype View =
    | Loading(fact: Option<string>)          // spinner, with the fact card when one is given
    | ErrorView(message: string)
    | EmptyView(heading: string)
    | Nothing                                // not searched yet: nothing is rendered
    | Results(banner: Option<string>, cards: seq<Recipe>)

  /** The message is shown above the results when it advises broader terms. */
  predicate ShowsBanner(message: Option<string>) {
    Truthy(message) && Contains(message.value, "broader")
  }

  /** The full component; an omitted `hasSearched` counts as false. */
  function SelectView(recipes: seq<Recipe>, loading: bool, error: Option<string>,
                      hasSearched: Option<bool>, message: Option<string>,
                      loadingFact: Option<string>): (v: View)
    ensures loading ==> v.Loading?
    ensures v.Loading? ==> (v.fact.Some? <==> Truthy(loadingFact)) && (v.fact.Some? ==> v.fact == loadingFact)
    ensures !loading && Truthy(error) ==> v == ErrorView(error.value)
    ensures v.EmptyView? <==> !loading && !Truthy(error) && hasSearched == Some(true) && |recipes| == 0
    ensures v.EmptyView? ==> v.heading == (if Truthy(message) then message.value else NoMatchHeading)
    ensures v.Nothing? <==> !loading && !Truthy(error) && hasSearched != Some(true)
    ensures v.Results? ==> v.cards == recipes && |recipes| > 0
    ensures v.Results? ==> (v.banner.Some? <==> ShowsBanner(message)) && (v.banner.Some? ==> v.banner == message)
  {
    var searched := hasSearched.GetOr(false);
    if loading then Loading(if Truthy(loadingFact) then loadingFact else None)
    else if Truthy(error) then ErrorView(error.value)
    else if searched && !loading && |recipes| == 0 then
      EmptyView(if Truthy(message) then message.value else NoMatchHeading)
    else if !searched then Nothing
    else Results(if ShowsBanner(message) then message else None, recipes)
  }

  /** Results are shown exactly after a finished, error-free search that found something. */
  lemma ResultsExactlyAfterSearch(recipes: seq<Recipe>, loading: bool, error: Option<string>,
                                  hasSearched: Option<bool>, message: Option<string>,
                                  loadingFact: Option<string>)
    ensures SelectView(recipes, loading, error, hasSearched, message, loadingFact).Results?
      <==> !loading && !Truthy(error) && hasSearched == Some(true) && |recipes| > 0
  {
  }

  /** The simpler panel's views. */
  datatype SimpleView = SimpleLoading | SimpleError(message: string) | SimpleEmpty | SimpleList(cards: seq<Recipe>)

  /** The simpler component: loading, then error, then empty, then every recipe in order. */
  function SelectSimpleView(recipes: seq<Recipe>, loading: bool, error: Option<string>): (v: SimpleView)
    ensures loading ==> v == SimpleLoading
    ensures !loading && Truthy(error) ==> v == SimpleError(error.value)
    ensures v.SimpleEmpty? <==> !loading && !Truthy(error) && |recipes| == 0
    ensures v.SimpleList? <==> !loading && !Truthy(error) && |recipes| > 0
    ensures v.SimpleList? ==> v.cards == recipes
  {
    if loading then SimpleLoading
    else if Truthy(error) then SimpleError(error.value)
    else if !loading && |recipes| == 0 then SimpleEmpty
    else SimpleList(recipes)
  }

  /** The view kind the simpler panel would pick for the same inputs. */
  function Simplify(v: View): Option<SimpleView> {
    match v
    case Loading(_) => Some(SimpleLoading)
    case ErrorView(m) => Some(SimpleError(m))
    case EmptyView(_) => Some(SimpleEmpty)
    case Nothing => None
    case Results(_, cards) => Some(SimpleList(cards))
  }

  /**
   * Once a search has happened the two panels agree, up to the heading of the
   * empty view and the banner; before it only the full one hides the list.
   */
  lemma VariantsAgreeAfterSearch(recipes: seq<Recipe>, loading: bool, error: Option<string>,
                                 message: Option<string>, loadingFact: Option<string>)
    ensures Simplify(SelectView(recipes, loading, error, Some(true), message, loadingFact))
      == Some(SelectSimpleView(recipes, loading, error))
  {
  }
}
