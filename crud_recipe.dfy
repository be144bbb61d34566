// The recipe store over in-memory tables: ingredients looked up or created
// by their stripped, lower-cased name, recipes created with their normalised
// ingredient set attached, and the search of recipes by ingredient names.
// Row ids are positions in the tables.
module CrudRecipe {
  import opened Wrappers
  import opened Text
  import opened Seqs
  import opened StableSort

  /** The ingredient table's UNIQUE constraint on names. */
  predicate UniqueNames(names: seq<string>) {
    forall i, j :: 0 <= i < j < |names| ==> names[i] != names[j]
  }

  /** The first row holding `key`, as the query's `.first()` returns it. */
  function FindName(names: seq<string>, key: string): (r: Option<nat>)
    ensures r.Some? <==> key in names
    ensures r.Some? ==> r.value < |names| && names[r.value] == key
    decreases |names|
  {
    if names == [] then None
    else if names[0] == key then Some(0)
    else
      match FindName(names[1..], key)
      case None => None
      case Some(i) => Some(i + 1)
  }

  /** With unique names, looking up a stored name finds its own row. */
  lemma {:induction false} FindNameOfUnique(names: seq<string>, i: nat)
    requires UniqueNames(names) && i < |names|
    ensures FindName(names, names[i]) == Some(i)
    decreases |names|
  {
    if i > 0 {
      assert names[1..][i - 1] == names[i];
      FindNameOfUnique(names[1..], i - 1);
    }
  }

  /** The ingredient table after a lookup-or-create, and the row found or added. */
  datatype Created = Created(names: seq<string>, id: nat)

  /** Reference definition of the lookup-or-insert of an already normalised name. */
  function Lookup(names: seq<string>, key: string): (r: Created)
    ensures r.id < |r.names| && r.names[r.id] == key
    ensures key in names ==> r.names == names
    ensures key !in names ==> r.names == names + [key] && r.id == |names|
    ensures UniqueNames(names) ==> UniqueNames(r.names)
  {
    match FindName(names, key)
    case Some(i) => Created(names, i)
    case None =>
      AppendUnique(names, key);
      Created(names + [key], |names|)
  }

  /** Get-or-create: the name is stripped and lower-cased, then looked up. */
  function GetOrCreate(names: seq<string>, name: string): Created {
    Lookup(names, Lower(Trim(name)))
  }

  /** A name not yet in the table can be added without breaking uniqueness. */
  lemma AppendUnique(names: seq<string>, key: string)
    requires key !in names
    ensures UniqueNames(names) ==> UniqueNames(names + [key])
  {
    var r := names + [key];
    if UniqueNames(names) {
      forall i, j | 0 <= i < j < |r|
        ensures r[i] != r[j]
      {
        if j == |names| {
          assert r[i] == names[i];
        } else {
          assert r[i] == names[i] && r[j] == names[j];
        }
      }
    }
  }

  /**
   * A second call with any spelling of the same name (other case, other
   * surrounding space) returns the same row and adds nothing.
   */
  lemma GetOrCreateIdempotent(names: seq<string>, name: string, other: string)
    requires UniqueNames(names)
    requires Lower(Trim(other)) == Lower(Trim(name))
    ensures GetOrCreate(GetOrCreate(names, name).names, other) == GetOrCreate(names, name)
  {
    var r := Lookup(names, Lower(Trim(name)));
    FindNameOfUnique(r.names, r.id);
  }

  /** What `create_recipe` receives. */
  datatype RecipeInput = RecipeInput(
    title: string,
    instructions: seq<string>,
    ingredients: seq<string>,
    readyInMinutes: Option<int>,
    sourceUrl: Option<string>,
    estimatedCostKes: Option<int>,
    proteinScore: Option<real>,
    proteinPerCost: Option<real>)

  /** One row of the recipe table. */
  datatype RecipeRow = RecipeRow(
    title: string,
    instructions: string,
    readyInMinutes: Option<int>,
    sourceUrl: Option<string>,
    estimatedCostKes: Option<int>,
    proteinScore: Option<real>,
    proteinPerCost: Option<real>)

  /** One row of the recipe-ingredient association table. */
  datatype Link = Link(recipeId: nat, ingredientId: nat)

  /** The stored row: the instruction list joined with single spaces. */
  function RowOf(data: RecipeInput): RecipeRow {
    RecipeRow(data.title, Join(data.instructions, ' '), data.readyInMinutes, data.sourceUrl,
              data.estimatedCostKes, data.proteinScore, data.proteinPerCost)
  }

  /** The set comprehension: the normalised names of the entries that are not blank. */
  function UniqueIngredients(ingredients: seq<string>): set<string> {
    set i | 0 <= i < |ingredients| && Trim(ingredients[i]) != "" :: Lower(Trim(ingredients[i]))
  }

  /** The names attached to a new recipe are non-blank and already in normal form. */
  lemma UniqueIngredientsNormalized(ingredients: seq<string>)
    ensures forall x :: x in UniqueIngredients(ingredients) ==> x != "" && Lower(Trim(x)) == x
  {
    forall x | x in UniqueIngredients(ingredients)
      ensures x != "" && Lower(Trim(x)) == x
    {
      var i :| 0 <= i < |ingredients| && Trim(ingredients[i]) != "" && x == Lower(Trim(ingredients[i]));
      NormalizeIdempotent(ingredients[i]);
    }
  }

  /** For a name already stripped and lower-cased, get-or-create is the plain lookup. */
  lemma GetOrCreateOfNormal(names: seq<string>, ingredients: seq<string>, key: string)
    requires key in UniqueIngredients(ingredients)
    ensures GetOrCreate(names, key) == Lookup(names, key)
  {
    UniqueIngredientsNormalized(ingredients);
  }

  /** Of the links of recipe `rid`, those whose ingredient is named in `wanted`. */
  function LinkCount(names: seq<string>, links: seq<Link>, rid: nat, wanted: seq<string>): nat
    decreases |links|
  {
    if links == [] then 0
    else
      var l := links[|links| - 1];
      LinkCount(names, links[..|links| - 1], rid, wanted)
        + (if l.recipeId == rid && l.ingredientId < |names| && names[l.ingredientId] in wanted then 1 else 0)
  }

  /** A recipe and how many of the wanted ingredients it has. */
  datatype Match = Match(recipeId: nat, count: nat)

  /** The recipes below `n` with at least one wanted ingredient, by id. */
  function Candidates(names: seq<string>, links: seq<Link>, n: nat, wanted: seq<string>): (r: seq<Match>)
    ensures forall k :: 0 <= k < |r| ==> r[k].recipeId < n
    decreases n
  {
    if n == 0 then []
    else
      var c := LinkCount(names, links, n - 1, wanted);
      Candidates(names, links, n - 1, wanted) + (if c > 0 then [Match(n - 1, c)] else [])
  }

  function ByCount(): Match -> real { (m: Match) => m.count as real }

  /**
   * Reference definition of the search: nothing for no names; otherwise the
   * recipes with at least one of the names, most matches first (recipes with
   * equal counts in id order).
   */
  function RecipesByIngredients(names: seq<string>, links: seq<Link>, nRecipes: nat, wanted: seq<string>): seq<Match> {
    if wanted == [] then [] else SortDesc(Candidates(names, links, nRecipes, wanted), ByCount())
  }

  /** A candidate is exactly a recipe with a positive count, listed with that count. */
  lemma {:induction false} CandidatesMembers(names: seq<string>, links: seq<Link>, n: nat, wanted: seq<string>, m: Match)
    ensures m in Candidates(names, links, n, wanted) <==>
      m.recipeId < n && m.count == LinkCount(names, links, m.recipeId, wanted) && m.count > 0
    decreases n
  {
    if n > 0 {
      CandidatesMembers(names, links, n - 1, wanted, m);
    }
  }

  predicate Increasing(c: seq<Match>) {
    forall i, j :: 0 <= i < j < |c| ==> c[i].recipeId < c[j].recipeId
  }

  /** Candidates are listed in increasing id order, so no recipe twice. */
  lemma {:induction false} CandidatesIncreasing(names: seq<string>, links: seq<Link>, n: nat, wanted: seq<string>)
    ensures Increasing(Candidates(names, links, n, wanted))
    decreases n
  {
    if n > 0 {
      CandidatesIncreasing(names, links, n - 1, wanted);
      var prev := Candidates(names, links, n - 1, wanted);
      var c := LinkCount(names, links, n - 1, wanted);
      var r := prev + (if c > 0 then [Match(n - 1, c)] else []);
      forall i, j | 0 <= i < j < |r|
        ensures r[i].recipeId < r[j].recipeId
      {
        assert r[i] == prev[i] && prev[i].recipeId < n - 1;
        if j < |prev| {
          assert r[j] == prev[j] && prev[i].recipeId < prev[j].recipeId;
        } else {
          assert r[j] == Match(n - 1, c);
        }
      }
    }
  }

  /** A sequence with two equal elements counts that element at least twice. */
  lemma RepeatCounted<T>(s: seq<T>, i: nat, j: nat)
    requires i < j < |s| && s[i] == s[j]
    ensures multiset(s)[s[i]] >= 2
  {
    assert s == s[..i] + [s[i]] + s[i + 1..j] + [s[j]] + s[j + 1..];
  }

  /**
   * The search returns exactly the recipes with at least one wanted
   * ingredient, each once, with its count, most matches first.
   */
  lemma RecipesByIngredientsSpec(names: seq<string>, links: seq<Link>, nRecipes: nat, wanted: seq<string>)
    ensures var r := RecipesByIngredients(names, links, nRecipes, wanted);
      SortedDesc(r, ByCount())
      && (forall m :: m in r <==> (wanted != [] && m.recipeId < nRecipes
            && m.count == LinkCount(names, links, m.recipeId, wanted) && m.count > 0))
      && (forall i, j :: 0 <= i < j < |r| ==> r[i].recipeId != r[j].recipeId)
  {
    var r := RecipesByIngredients(names, links, nRecipes, wanted);
    if wanted != [] {
      var c := Candidates(names, links, nRecipes, wanted);
      SortDescSorted(c, ByCount());
      assert multiset(r) == multiset(c);
      forall m
        ensures m in r <==> m.recipeId < nRecipes && m.count == LinkCount(names, links, m.recipeId, wanted) && m.count > 0
      {
        assert m in r <==> m in multiset(r);
        assert m in c <==> m in multiset(c);
        CandidatesMembers(names, links, nRecipes, wanted, m);
      }
      CandidatesIncreasing(names, links, nRecipes, wanted);
      forall i, j | 0 <= i < j < |r|
        ensures r[i].recipeId != r[j].recipeId
      {
        assert r[i] in multiset(r) && r[j] in multiset(r);
        CandidatesMembers(names, links, nRecipes, wanted, r[i]);
        CandidatesMembers(names, links, nRecipes, wanted, r[j]);
        if r[i].recipeId == r[j].recipeId {
          RepeatCounted(r, i, j);
          CandidatesAtMostOnce(c, r[i]);
        }
      }
    }
  }

  /** Ids listed in increasing order list every match at most once. */
  lemma {:induction false} CandidatesAtMostOnce(c: seq<Match>, m: Match)
    requires Increasing(c)
    ensures multiset(c)[m] <= 1
    decreases |c|
  {
    if c != [] {
      var init, last := c[..|c| - 1], c[|c| - 1];
      assert c == init + [last];
      CandidatesAtMostOnce(init, m);
      if last == m {
        forall k | 0 <= k < |init|
          ensures init[k] != m
        {
          assert init[k] == c[k];
        }
        assert multiset(init)[m] == 0;
      }
    }
  }

  /** The in-memory database: the three tables the operations touch. */
  class Db {
    var ingredientNames: seq<string>
    var recipes: seq<RecipeRow>
    var links: seq<Link>

    /** The constraints of the schema: unique names, links to existing rows, no link twice. */
    predicate Valid()
      reads this
    {
      UniqueNames(ingredientNames)
      && (forall l :: l in links ==> l.recipeId < |recipes| && l.ingredientId < |ingredientNames|)
      && NoDuplicates(links)
    }

    constructor ()
      ensures Valid() && ingredientNames == [] && recipes == [] && links == []
    {
      ingredientNames := [];
      recipes := [];
      links := [];
    }

    /** `get_or_create_ingredient`: the row of the normalised name, added when missing. */
    method GetOrCreateIngredient(name: string) returns (id: nat)
      requires Valid()
      modifies this
      ensures Valid()
      ensures Created(ingredientNames, id) == GetOrCreate(old(ingredientNames), name)
      ensures recipes == old(recipes) && links == old(links)
    {
      id := FindOrInsert(Lower(Trim(name)));
    }

    /** The query on the name column and, when it finds nothing, the insert. */
    method FindOrInsert(key: string) returns (id: nat)
      requires Valid()
      modifies this
      ensures Valid()
      ensures Created(ingredientNames, id) == Lookup(old(ingredientNames), key)
      ensures recipes == old(recipes) && links == old(links)
    {
      var found := FindName(ingredientNames, key);
      if found.Some? {
        return found.value;
      }
      AppendUnique(ingredientNames, key);
      ingredientNames := ingredientNames + [key];
      id := |ingredientNames| - 1;
    }

    /**
     * `create_recipe`: a new recipe row, then every normalised ingredient
     * looked up or created and attached once, in the set's (unspecified)
     * iteration order.
     */
    method CreateRecipe(data: RecipeInput) returns (rid: nat)
      requires Valid()
      modifies this
      ensures Valid()
      ensures rid == |old(recipes)| && recipes == old(recipes) + [RowOf(data)]
      ensures |old(ingredientNames)| <= |ingredientNames| && ingredientNames[..|old(ingredientNames)|] == old(ingredientNames)
      ensures forall x :: x in ingredientNames <==> x in old(ingredientNames) || x in UniqueIngredients(data.ingredients)
      ensures forall l :: l in links <==> (l in old(links) || (l.recipeId == rid && l.ingredientId < |ingredientNames|
        && ingredientNames[l.ingredientId] in UniqueIngredients(data.ingredients)))
    {
      recipes := recipes + [RowOf(data)];
      rid := |recipes| - 1;
      AttachAll(rid, UniqueIngredients(data.ingredients));
    }

    /** The attach loop of `create_recipe`, taking the names in any order. */
    method AttachAll(rid: nat, unique: set<string>)
      requires Valid() && rid < |recipes|
      modifies this
      ensures Valid() && recipes == old(recipes)
      ensures |old(ingredientNames)| <= |ingredientNames| && ingredientNames[..|old(ingredientNames)|] == old(ingredientNames)
      ensures forall x :: x in ingredientNames <==> x in old(ingredientNames) || x in unique
      ensures forall l :: l in links <==> (l in old(links) || (l.recipeId == rid && l.ingredientId < |ingredientNames|
        && ingredientNames[l.ingredientId] in unique))
    {
      var rest := unique;
      ghost var done: set<string> := {};
      while rest != {}
        invariant Valid() && recipes == old(recipes)
        invariant rest + done == unique && rest !! done
        invariant |old(ingredientNames)| <= |ingredientNames|
        invariant ingredientNames[..|old(ingredientNames)|] == old(ingredientNames)
        invariant forall x :: x in ingredientNames <==> x in old(ingredientNames) || x in done
        invariant forall l :: l in links <==> (l in old(links) || (l.recipeId == rid && l.ingredientId < |ingredientNames|
          && ingredientNames[l.ingredientId] in done))
        decreases |rest|
      {
        var name :| name in rest;
        ghost var before := ingredientNames;
        AttachIngredient(rid, name, done, old(links));
        PrefixOfPrefix(old(ingredientNames), before, ingredientNames);
        MoveOne(rest, done, unique, name);
        rest := rest - {name};
        done := done + {name};
      }
    }

    /**
     * One pass of the attach loop: look the name up (or create it) and link
     * it to the recipe unless the link is already there. The names come out
     * of the set already normalised, where normalising again changes nothing
     * (`GetOrCreateOfNormal`), so the lookup goes straight to the name column.
     */
    method AttachIngredient(rid: nat, name: string, ghost done: set<string>, ghost oldLinks: seq<Link>)
      requires Valid() && rid < |recipes|
      requires forall x :: x in done ==> x in ingredientNames
      requires forall l :: l in links <==> (l in oldLinks || (l.recipeId == rid && l.ingredientId < |ingredientNames|
        && ingredientNames[l.ingredientId] in done))
      modifies this
      ensures Valid() && recipes == old(recipes)
      ensures |old(ingredientNames)| <= |ingredientNames| && ingredientNames[..|old(ingredientNames)|] == old(ingredientNames)
      ensures forall x :: x in ingredientNames <==> x in old(ingredientNames) || x == name
      ensures forall l :: l in links <==> (l in oldLinks || (l.recipeId == rid && l.ingredientId < |ingredientNames|
        && ingredientNames[l.ingredientId] in done + {name}))
    {
      ghost var before := ingredientNames;
      ghost var linksBefore := links;
      var id := FindOrInsert(name);
      AttachStep(before, ingredientNames, linksBefore, oldLinks, rid, id, name, done);
      if Link(rid, id) !in links {
        links := links + [Link(rid, id)];
      }
    }

    /** `get_recipes_by_ingredients`: the recipes with at least one of the names, most matches first. */
    method GetRecipesByIngredients(wanted: seq<string>) returns (r: seq<Match>)
      requires Valid()
      ensures r == RecipesByIngredients(ingredientNames, links, |recipes|, wanted)
      ensures wanted == [] ==> r == []
    {
      if wanted == [] {
        return [];
      }
      r := SortDesc(Candidates(ingredientNames, links, |recipes|, wanted), ByCount());
    }
  }

  /** A prefix of a prefix is a prefix. */
  lemma PrefixOfPrefix<T>(a: seq<T>, b: seq<T>, c: seq<T>)
    requires |a| <= |b| && b[..|a|] == a
    requires |b| <= |c| && c[..|b|] == b
    ensures |a| <= |c| && c[..|a|] == a
  {
    assert c[..|a|] == c[..|b|][..|a|];
  }

  /** Moving one element from the names still to attach to those attached keeps their union. */
  lemma MoveOne<T>(rest: set<T>, done: set<T>, all: set<T>, x: T)
    requires rest + done == all && rest !! done && x in rest
    ensures (rest - {x}) + (done + {x}) == all && (rest - {x}) !! (done + {x})
    ensures |rest - {x}| < |rest|
  {
  }

  /**
   * One pass of the attach loop: the table only grew, so every link still
   * names the same ingredient, and the looked-up row is the only one named `name`.
   */
  lemma AttachStep(before: seq<string>, after: seq<string>, links: seq<Link>, oldLinks: seq<Link>,
                   rid: nat, id: nat, name: string, done: set<string>)
    requires UniqueNames(after)
    requires |before| <= |after| && after[..|before|] == before
    requires id < |after| && after[id] == name
    requires forall x :: x in done ==> x in before
    requires forall l :: l in links <==> l in oldLinks || (l.recipeId == rid && l.ingredientId < |before| && before[l.ingredientId] in done)
    ensures forall l :: l in links <==> (l in oldLinks
      || (l.recipeId == rid && l.ingredientId < |after| && after[l.ingredientId] in done))
    ensures forall l :: l in links + [Link(rid, id)] <==> (l in oldLinks
      || (l.recipeId == rid && l.ingredientId < |after| && after[l.ingredientId] in done + {name}))
  {
    // the rows added by the lookup hold names not in the table before it
    forall k | |before| <= k < |after|
      ensures after[k] !in before
    {
      forall k' | 0 <= k' < |before|
        ensures before[k'] != after[k]
      {
        assert before[k'] == after[k'];
      }
    }
    forall l
      ensures l in links <==> l in oldLinks || (l.recipeId == rid && l.ingredientId < |after| && after[l.ingredientId] in done)
    {
      if l.ingredientId < |before| {
        assert after[l.ingredientId] == before[l.ingredientId];
      }
    }
  }
}
