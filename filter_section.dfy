/** The structured search filters and the chip handlers that edit them
    (FilterSection.tsx). Every handler builds a new record from the old one. */
module FilterSection {
  import opened Wrappers

  datatype Filters = Filters(
    time: Option<string>,
    budget: Option<string>,
    goal: Option<string>,
    ingredients: seq<string>)

  const TimeOptions: seq<string> := ["Under 20 min", "Under 30 min", "No limit"]
  const BudgetOptions: seq<string> := ["Cheap", "Moderate", "Doesn't matter"]
  const GoalOptions: seq<string> := ["High protein ⚡", "Balanced", "Light / low calorie"]

  /** The filters a session starts with. */
  const EmptyFilters: Filters := Filters(None, None, None, [])

  /** A chip click on `option`: clicking the active option clears the field,
      clicking any other option selects it. */
  function Toggle(current: Option<string>, option: string): (r: Option<string>)
    ensures r == None <==> current == Some(option)
    ensures r != None ==> r == Some(option)
  {
    if current == Some(option) then None else Some(option)
  }

  function ToggleTime(f: Filters, option: string): (r: Filters)
    ensures r.time == None <==> f.time == Some(option)
    ensures r.time != None ==> r.time == Some(option)
    ensures r.budget == f.budget && r.goal == f.goal && r.ingredients == f.ingredients
  {
    f.(time := Toggle(f.time, option))
  }

  function ToggleBudget(f: Filters, option: string): (r: Filters)
    ensures r.budget == None <==> f.budget == Some(option)
    ensures r.budget != None ==> r.budget == Some(option)
    ensures r.time == f.time && r.goal == f.goal && r.ingredients == f.ingredients
  {
    f.(budget := Toggle(f.budget, option))
  }

  function ToggleGoal(f: Filters, option: string): (r: Filters)
    ensures r.goal == None <==> f.goal == Some(option)
    ensures r.goal != None ==> r.goal == Some(option)
    ensures r.time == f.time && r.budget == f.budget && r.ingredients == f.ingredients
  {
    f.(goal := Toggle(f.goal, option))
  }

  /** The ingredient editor's change replaces only the ingredient list. */
  function SetIngredients(f: Filters, ingredients: seq<string>): (r: Filters)
    ensures r.ingredients == ingredients
    ensures r.time == f.time && r.budget == f.budget && r.goal == f.goal
  {
    f.(ingredients := ingredients)
  }

  /** Clicking the same chip twice restores the field exactly when it was
      unset or already set to that chip; from another option it ends unset. */
  lemma ToggleTwice(current: Option<string>, option: string)
    ensures Toggle(Toggle(current, option), option) == current
        <==> current == None || current == Some(option)
    ensures current != None && current != Some(option)
        ==> Toggle(Toggle(current, option), option) == None
  {
  }

  lemma ToggleTimeTwice(f: Filters, option: string)
    ensures ToggleTime(ToggleTime(f, option), option) == f
        <==> f.time == None || f.time == Some(option)
  {
    ToggleTwice(f.time, option);
    if ToggleTime(ToggleTime(f, option), option) == f {
      assert Toggle(Toggle(f.time, option), option) == f.time;
    }
  }

  /** A field holds either nothing or one of its chip labels. */
  predicate OneOf(v: Option<string>, options: seq<string>) {
    v == None || v.value in options
  }

  predicate ValidChoices(f: Filters) {
    OneOf(f.time, TimeOptions) && OneOf(f.budget, BudgetOptions) && OneOf(f.goal, GoalOptions)
  }

  /** Chip clicks only ever select values from the fixed option lists. */
  lemma TogglesKeepChoicesValid(f: Filters, option: string, ingredients: seq<string>)
    requires ValidChoices(f)
    ensures option in TimeOptions ==> ValidChoices(ToggleTime(f, option))
    ensures option in BudgetOptions ==> ValidChoices(ToggleBudget(f, option))
    ensures option in GoalOptions ==> ValidChoices(ToggleGoal(f, option))
    ensures ValidChoices(SetIngredients(f, ingredients))
  {
  }
}
