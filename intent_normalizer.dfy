// Light normalisation of a parsed search intent, done in place: a query
// mentioning breakfast sets the recipe type, and the time limit gets a
// five-minute buffer, taken from the intent or from "under N" in the query.
module IntentNormalizer {
  import opened Wrappers
  import opened Text
  import opened BackendRecipe

  const BreakfastType := "breakfast"
  const TimeBuffer := 5
  const UnderWord := "under "

  /** An "under " at `i` followed by at least one digit: where `under (\d+)` can match. */
  predicate UnderAt(s: string, i: int) {
    OccursAt(s, UnderWord, i) && i + |UnderWord| < |s| && IsDigit(s[i + |UnderWord|])
  }

  /** The leftmost match position at or after `from`, as a regular-expression search finds it. */
  function FirstUnder(s: string, from: nat): (r: Option<nat>)
    ensures r.Some? ==> from <= r.value && UnderAt(s, r.value)
    ensures r.Some? ==> forall j :: from <= j < r.value ==> !UnderAt(s, j)
    ensures r.None? ==> forall j :: from <= j ==> !UnderAt(s, j)
    decreases |s| - from
  {
    if from >= |s| then None
    else if UnderAt(s, from) then Some(from)
    else FirstUnder(s, from + 1)
  }

  /** The number of digits from position `j` on: the greedy `\d+`. */
  function DigitRunLength(s: string, j: nat): (n: nat)
    requires j <= |s|
    ensures j + n <= |s|
    ensures forall k :: j <= k < j + n ==> IsDigit(s[k])
    ensures j + n == |s| || !IsDigit(s[j + n])
    decreases |s| - j
  {
    if j < |s| && IsDigit(s[j]) then 1 + DigitRunLength(s, j + 1) else 0
  }

  /** The number after the first "under ", if any. */
  function UnderNumber(s: string): (r: Option<nat>)
    ensures r.None? <==> forall j :: !UnderAt(s, j)
  {
    match FirstUnder(s, 0)
    case None => None
    case Some(i) =>
      var start := i + |UnderWord|;
      var digits := s[start..start + DigitRunLength(s, start)];
      Some(DigitsValue(digits))
  }

  /** The new time limit: a truthy limit gets the buffer; otherwise "under N" gives N plus the buffer. */
  function NormalizedTime(time: Option<int>, loweredQuery: string): (r: Option<int>)
    ensures TruthyInt(time) ==> r == Some(time.value + TimeBuffer)
    ensures !TruthyInt(time) && UnderNumber(loweredQuery).Some? ==> r == Some(UnderNumber(loweredQuery).value + TimeBuffer)
    ensures !TruthyInt(time) && UnderNumber(loweredQuery).None? ==> r == time
  {
    if TruthyInt(time) then Some(time.value + TimeBuffer)
    else match UnderNumber(loweredQuery)
      case Some(n) => Some(n + TimeBuffer)
      case None => time
  }

  /** "under N" written out is read back as N. */
  lemma UnderRoundTrip(n: nat)
    ensures UnderNumber(UnderWord + NatToString(n)) == Some(n)
  {
    var digits := NatToString(n);
    var s := UnderWord + digits;
    assert s[..|UnderWord|] == UnderWord;
    assert UnderAt(s, 0);
    assert forall k :: |UnderWord| <= k < |s| ==> s[k] == digits[k - |UnderWord|];
    var len := DigitRunLength(s, |UnderWord|);
    assert len == |digits|;
    assert s[|UnderWord|..|UnderWord| + len] == digits;
    DigitsValueOfNatToString(n);
  }

  /** "under 10" in a query means a limit of 15 minutes. */
  lemma UnderTenScenario()
    ensures NormalizedTime(None, Lower("under 10")) == Some(15)
  {
    assert Lower("under 10") == UnderWord + NatToString(10);
    UnderRoundTrip(10);
  }

  /** The parsed intent, with the two fields the normaliser writes. */
  class Intent {
    var query: string
    var cuisine: Option<string>
    var diet: Option<string>
    var intolerances: Option<seq<string>>
    var maxCalories: Option<int>
    var maxPrice: Option<real>
    var recipeType: Option<string>
    var maxTimeMinutes: Option<int>

    constructor (query: string, cuisine: Option<string>, diet: Option<string>, intolerances: Option<seq<string>>,
                 maxCalories: Option<int>, maxPrice: Option<real>, recipeType: Option<string>, maxTimeMinutes: Option<int>)
      ensures this.query == query && this.cuisine == cuisine && this.diet == diet
      ensures this.intolerances == intolerances && this.maxCalories == maxCalories && this.maxPrice == maxPrice
      ensures this.recipeType == recipeType && this.maxTimeMinutes == maxTimeMinutes
    {
      this.query := query;
      this.cuisine := cuisine;
      this.diet := diet;
      this.intolerances := intolerances;
      this.maxCalories := maxCalories;
      this.maxPrice := maxPrice;
      this.recipeType := recipeType;
      this.maxTimeMinutes := maxTimeMinutes;
    }

    /**
     * The normaliser: only the recipe type and the time limit change; the
     * "healthy" check is a no-op and leaves the calorie limit alone.
     */
    method Normalize()
      modifies this
      ensures recipeType == (if Contains(Lower(query), BreakfastType) then Some(BreakfastType) else old(recipeType))
      ensures maxTimeMinutes == NormalizedTime(old(maxTimeMinutes), Lower(query))
      ensures query == old(query) && cuisine == old(cuisine) && diet == old(diet)
      ensures intolerances == old(intolerances) && maxCalories == old(maxCalories) && maxPrice == old(maxPrice)
    {
      var queryLower := Lower(query);
      var newType := recipeType;
      if Contains(queryLower, BreakfastType) {
        newType := Some(BreakfastType);
      }
      var time := maxTimeMinutes;
      var newTime := time;
      if TruthyInt(time) {
        newTime := Some(time.value + TimeBuffer);
      } else {
        var timeMatch := UnderNumber(queryLower);
        if timeMatch.Some? {
          newTime := Some(timeMatch.value + TimeBuffer);
        }
      }
      assert newTime == NormalizedTime(time, queryLower);
      recipeType, maxTimeMinutes := newType, newTime;
    }
  }
}
