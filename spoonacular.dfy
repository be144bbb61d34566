// The Spoonacular service: the query parameters of a search request (the HTTP
// call itself is outside the model) and the keep-first de-duplication of the
// results by stripped, lower-cased title and ready time.
module Spoonacular {
  import opened Wrappers
  import opened Text
  import opened Seqs
  import opened Dedup
  import opened BackendRecipe

  const MissingKeyError := "Spoonacular API key not set"
  const DefaultNumber := 10

  // ---------- search parameters ----------

  datatype ParamValue = Text(text: string) | Flag(flag: bool) | Number(number: int)

  /** The parameters every search sends. */
  function BaseParams(apiKey: string, query: string, number: int): map<string, ParamValue> {
    map["apiKey" := Text(apiKey), "query" := Text(query), "addRecipeInformation" := Flag(true),
        "fillIngredients" := Flag(true), "number" := Number(number), "sort" := Text("popularity")]
  }

  /**
   * The parameter building of the search: it fails when the key is unset or
   * empty, and adds `diet` and `maxReadyTime` exactly when they are truthy.
   */
  method SearchParams(apiKey: Option<string>, query: string, diet: Option<string>, maxTime: Option<int>, number: int)
    returns (r: Result<map<string, ParamValue>, string>)
    ensures r.Err? <==> apiKey.None? || apiKey.value == ""
    ensures r.Err? ==> r.error == MissingKeyError
    ensures r.Ok? ==> ("diet" in r.value <==> diet.Some? && diet.value != "")
    ensures r.Ok? ==> ("maxReadyTime" in r.value <==> TruthyInt(maxTime))
    ensures r.Ok? && "diet" in r.value ==> r.value["diet"] == Text(diet.value)
    ensures r.Ok? && "maxReadyTime" in r.value ==> r.value["maxReadyTime"] == Number(maxTime.value)
    ensures r.Ok? ==> r.value.Keys - {"diet", "maxReadyTime"} == BaseParams(apiKey.value, query, number).Keys
    ensures r.Ok? ==> forall k :: k in BaseParams(apiKey.value, query, number) ==>
      k in r.value && r.value[k] == BaseParams(apiKey.value, query, number)[k]
  {
    if apiKey.None? || apiKey.value == "" {
      return Err(MissingKeyError);
    }
    var params := BaseParams(apiKey.value, query, number);
    if diet.Some? && diet.value != "" {
      params := params["diet" := Text(diet.value)];
    }
    if TruthyInt(maxTime) {
      params := params["maxReadyTime" := Number(maxTime.value)];
    }
    r := Ok(params);
  }

  // ---------- result de-duplication ----------

  /** One search result: the two fields the key reads and the rest of the payload. */
  datatype SearchResult = SearchResult(id: Option<int>, title: Option<string>, readyInMinutes: Option<int>)

  /** The de-duplication key: the stripped, lower-cased title (missing reads as empty) and the ready time. */
  datatype ResultKey = ResultKey(title: string, readyInMinutes: Option<int>)

  function KeyOf(r: SearchResult): ResultKey {
    ResultKey(Lower(Trim(r.title.GetOr(""))), r.readyInMinutes)
  }

  function ByResultKey(): SearchResult -> ResultKey { r => KeyOf(r) }

  /** The source's loop: a `seen` set of keys and the list of results kept. */
  method DedupeSpoonacularResults(results: seq<SearchResult>) returns (unique: seq<SearchResult>)
    ensures unique == DedupeBy(results, ByResultKey())
    ensures IsSubseq(unique, results) && |unique| <= |results|
    ensures DistinctKeys(unique, ByResultKey())
    ensures Keys(unique, ByResultKey()) == Keys(results, ByResultKey())
  {
    unique := Dedupe(results, ByResultKey());
    SubseqLength(unique, results);
  }

  /** Running the de-duplication on its own output changes nothing. */
  lemma DedupeResultsIdempotent(results: seq<SearchResult>)
    ensures DedupeBy(DedupeBy(results, ByResultKey()), ByResultKey()) == DedupeBy(results, ByResultKey())
  {
    DedupeIdempotent(results, ByResultKey());
  }

  /** A result is kept exactly when no earlier result has its key. */
  lemma KeptIffFirst(results: seq<SearchResult>, i: nat)
    requires i < |results|
    ensures FirstOfKey(results, ByResultKey(), i) ==> results[i] in DedupeBy(results, ByResultKey())
    ensures results[i] in DedupeBy(results, ByResultKey()) ==> IsFirstOfItsKey(results, ByResultKey(), results[i])
  {
    if FirstOfKey(results, ByResultKey(), i) {
      DedupeKeepsEveryFirst(results, ByResultKey(), i);
    }
    DedupeKeepsFirst(results, ByResultKey());
  }

  /** Two results whose titles differ only in case and surrounding space, with the same time, keep only the first. */
  lemma CaseAndSpaceCollapse(a: SearchResult, b: SearchResult)
    requires Lower(Trim(a.title.GetOr(""))) == Lower(Trim(b.title.GetOr("")))
    requires a.readyInMinutes == b.readyInMinutes
    ensures DedupeBy([a, b], ByResultKey()) == [a]
  {
    DedupePair(a, b, ByResultKey());
  }

  /** The same title with a different ready time is a different result and is kept. */
  lemma DifferentTimeKept(a: SearchResult, b: SearchResult)
    requires a.readyInMinutes != b.readyInMinutes
    ensures DedupeBy([a, b], ByResultKey()) == [a, b]
  {
    DedupePair(a, b, ByResultKey());
  }
}
