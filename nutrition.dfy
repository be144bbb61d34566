// Protein extraction from Spoonacular nutrition data: the amount of the first
// nutrient named "protein" (any case).
module Nutrition {
  import opened Wrappers
  import opened Text

  /** One nutrient entry; a missing name reads as "", a missing amount as 0. */
  datatype Nutrient = Nutrient(name: Option<string>, amount: Option<real>)

  predicate IsProtein(n: Nutrient) {
    Lower(n.name.GetOr("")) == "protein"
  }

  /** `nutrients[i]` is the first protein entry. */
  predicate FirstProteinAt(nutrients: seq<Nutrient>, i: int) {
    0 <= i < |nutrients| && IsProtein(nutrients[i]) && forall j :: 0 <= j < i ==> !IsProtein(nutrients[j])
  }

  /** The first protein entry's amount, or none when no entry is protein. */
  function FirstProtein(nutrients: seq<Nutrient>): (r: Option<real>)
    ensures r.None? <==> forall i :: 0 <= i < |nutrients| ==> !IsProtein(nutrients[i])
    ensures r.Some? ==> exists i :: FirstProteinAt(nutrients, i) && r.value == nutrients[i].amount.GetOr(0.0)
    decreases |nutrients|
  {
    if nutrients == [] then None
    else if IsProtein(nutrients[0]) then Some(nutrients[0].amount.GetOr(0.0))
    else
      var r := FirstProtein(nutrients[1..]);
      assert forall i :: 0 <= i < |nutrients| - 1 ==> nutrients[1..][i] == nutrients[i + 1];
      if r.Some? then
        ghost var k :| FirstProteinAt(nutrients[1..], k) && r.value == nutrients[1..][k].amount.GetOr(0.0);
        assert FirstProteinAt(nutrients, k + 1);
        r
      else r
  }

  /**
   * The protein score of a recipe; `nutrients` is none when the recipe has no
   * nutrition data (or none under it), which reads as an empty list.
   */
  function CalculateProteinScore(nutrients: Option<seq<Nutrient>>): (r: Option<real>)
    ensures nutrients.None? ==> r.None?
    ensures nutrients.Some? ==> r == FirstProtein(nutrients.value)
  {
    FirstProtein(nutrients.GetOr([]))
  }

  /** Entries after the first protein entry never change the score. */
  lemma {:induction false} LaterEntriesIgnored(nutrients: seq<Nutrient>, i: nat, rest: seq<Nutrient>)
    requires i < |nutrients| && IsProtein(nutrients[i])
    ensures FirstProtein(nutrients[..i + 1] + rest) == FirstProtein(nutrients)
    decreases i
  {
    if i > 0 && !IsProtein(nutrients[0]) {
      assert (nutrients[..i + 1] + rest)[1..] == nutrients[1..][..i] + rest;
      LaterEntriesIgnored(nutrients[1..], i - 1, rest);
    }
  }
}
