// The human-readable reasons attached to a ranked recipe: time, ingredient
// match, protein and cost, in that order, or a fallback when none applies.
module ExplanationBuilder {
  import opened Wrappers
  import opened Text
  import opened BackendRecipe

  const HighProteinReason := "High protein for sustained energy"
  const BudgetReason := "Budget-friendly ingredients"
  const FallbackReason := "Well balanced and practical"

  /** The time reason: quick recipes only, and only for a truthy time. */
  function TimeReasons(time: Option<int>): (r: seq<string>)
    ensures |r| <= 1
    ensures r != [] <==> TruthyInt(time) && time.value <= 30
    ensures r != [] ==> |r[0]| > 0 && (r[0][0] == 'R' || r[0][0] == 'Q')
    ensures r != [] ==> (r[0][0] == 'R' <==> time.value <= 20)
  {
    if TruthyInt(time) then
      if time.value <= 20 then ["Ready in just " + IntToString(time.value) + " minutes"]
      else if time.value <= 30 then ["Quick to prepare (" + IntToString(time.value) + " minutes)"]
      else []
    else []
  }

  /** The lower-cased query ingredients. */
  function LowerAll(query: seq<string>): set<string> {
    set j | 0 <= j < |query| :: Lower(query[j])
  }

  /** The recipe's (distinct) ingredients that equal some lower-cased query ingredient. */
  function Matched(ingredients: seq<string>, query: seq<string>): set<string> {
    set i | 0 <= i < |ingredients| && ingredients[i] in LowerAll(query) :: ingredients[i]
  }

  function MatchReasons(ingredients: seq<string>, query: seq<string>): (r: seq<string>)
    ensures |r| <= 1
    ensures r != [] <==> |Matched(ingredients, query)| > 0
    ensures r != [] ==> |r[0]| > 0 && r[0][0] == 'U'
  {
    var n := |Matched(ingredients, query)|;
    if n > 0 then ["Uses " + NatToString(n) + " of your ingredients"] else []
  }

  function ProteinReasons(protein: Option<real>): (r: seq<string>)
    ensures r == [] || r == [HighProteinReason]
    ensures r != [] <==> protein.Some? && protein.value >= 20.0
  {
    if TruthyReal(protein) && protein.value >= 20.0 then [HighProteinReason] else []
  }

  function CostReasons(cost: Option<int>): (r: seq<string>)
    ensures r == [] || r == [BudgetReason]
    ensures r != [] <==> TruthyInt(cost) && cost.value <= 500
  {
    if TruthyInt(cost) && cost.value <= 500 then [BudgetReason] else []
  }

  /** Reference definition: the reasons in order, or the fallback alone. */
  function Explanations(recipe: RecipeDict, query: seq<string>): seq<string> {
    var reasons := TimeReasons(recipe.readyInMinutes) + MatchReasons(recipe.ingredients, query)
      + ProteinReasons(recipe.protein) + CostReasons(recipe.estimatedCostKes);
    if reasons == [] then [FallbackReason] else reasons
  }

  /** The builder as the source writes it: a list appended to step by step. The persona is unused. */
  method BuildExplanations(recipe: RecipeDict, query: seq<string>, persona: string) returns (reasons: seq<string>)
    ensures reasons == Explanations(recipe, query)
  {
    reasons := [];
    var time := recipe.readyInMinutes;
    if TruthyInt(time) {
      if time.value <= 20 {
        reasons := reasons + ["Ready in just " + IntToString(time.value) + " minutes"];
      } else if time.value <= 30 {
        reasons := reasons + ["Quick to prepare (" + IntToString(time.value) + " minutes)"];
      }
    }
    assert reasons == TimeReasons(time);
    var matched := Matched(recipe.ingredients, query);
    if |matched| > 0 {
      reasons := reasons + ["Uses " + NatToString(|matched|) + " of your ingredients"];
    }
    assert reasons == TimeReasons(time) + MatchReasons(recipe.ingredients, query);
    var protein := recipe.protein;
    if TruthyReal(protein) && protein.value >= 20.0 {
      reasons := reasons + [HighProteinReason];
    }
    var cost := recipe.estimatedCostKes;
    if TruthyInt(cost) && cost.value <= 500 {
      reasons := reasons + [BudgetReason];
    }
    if reasons == [] {
      reasons := reasons + [FallbackReason];
    }
  }

  /** The reasons that apply, before the fallback is considered. */
  function Applicable(recipe: RecipeDict, query: seq<string>): seq<string> {
    TimeReasons(recipe.readyInMinutes) + MatchReasons(recipe.ingredients, query)
      + ProteinReasons(recipe.protein) + CostReasons(recipe.estimatedCostKes)
  }

  /** Every applicable reason begins with a letter the fallback does not. */
  lemma ApplicableFirstLetters(recipe: RecipeDict, query: seq<string>)
    ensures var a := Applicable(recipe, query);
      forall k :: 0 <= k < |a| ==> |a[k]| > 0 && a[k][0] in {'R', 'Q', 'U', 'H', 'B'}
  {
    var t := TimeReasons(recipe.readyInMinutes);
    var m := MatchReasons(recipe.ingredients, query);
    var p := ProteinReasons(recipe.protein);
    var c := CostReasons(recipe.estimatedCostKes);
    var a := Applicable(recipe, query);
    assert a == t + m + p + c;
    forall k | 0 <= k < |a| ensures |a[k]| > 0 && a[k][0] in {'R', 'Q', 'U', 'H', 'B'} {
      if k < |t| {
        assert a[k] == t[k];
      } else if k < |t| + |m| {
        assert a[k] == m[k - |t|];
      } else if k < |t| + |m| + |p| {
        assert a[k] == HighProteinReason;
      } else {
        assert a[k] == BudgetReason;
      }
    }
  }

  /**
   * The explanation is never empty, has at most four reasons, and is the
   * fallback alone exactly when no other reason applies; the fallback is
   * never mixed with other reasons.
   */
  lemma ExplanationsFallback(recipe: RecipeDict, query: seq<string>)
    ensures var r := Explanations(recipe, query);
      1 <= |r| <= 4
      && (FallbackReason in r <==> Applicable(recipe, query) == [])
      && (FallbackReason in r ==> r == [FallbackReason])
  {
    var a := Applicable(recipe, query);
    ApplicableFirstLetters(recipe, query);
    forall k | 0 <= k < |a| ensures a[k] != FallbackReason {
      assert a[k][0] != FallbackReason[0];
    }
  }

  /** The protein reason appears exactly for a protein of at least 20 grams. */
  lemma HighProteinIff(recipe: RecipeDict, query: seq<string>)
    ensures HighProteinReason in Explanations(recipe, query)
      <==> recipe.protein.Some? && recipe.protein.value >= 20.0
  {
    var t := TimeReasons(recipe.readyInMinutes);
    var m := MatchReasons(recipe.ingredients, query);
    var p := ProteinReasons(recipe.protein);
    var c := CostReasons(recipe.estimatedCostKes);
    var a := Applicable(recipe, query);
    assert a == t + m + p + c;
    if recipe.protein.Some? && recipe.protein.value >= 20.0 {
      assert a[|t| + |m|] == HighProteinReason;
    } else {
      assert HighProteinReason != FallbackReason by { assert HighProteinReason[0] != FallbackReason[0]; }
      forall k | 0 <= k < |a| ensures a[k] != HighProteinReason {
        if k < |t| {
          assert a[k] == t[k] && t[k][0] != HighProteinReason[0];
        } else if k < |t| + |m| {
          assert a[k] == m[k - |t|] && m[k - |t|][0] != HighProteinReason[0];
        } else {
          assert a[k] == BudgetReason;
        }
      }
    }
  }
}
