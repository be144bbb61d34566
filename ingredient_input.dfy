// The ingredient chip editor: typed text is trimmed and lower-cased, added on
// Enter when new, and a chip's remove button drops that ingredient.
module IngredientInput {
  import opened Wrappers
  import opened Text
  import opened Seqs

  /** The form an ingredient is stored in: trimmed, then lower-cased. */
  function Normalize(input: string): string {
    Lower(Trim(input))
  }

  /** An entry as the editor stores it: non-empty and already in normal form. */
  predicate IsNormalized(s: string) {
    s != [] && Normalize(s) == s
  }

  /**
   * The list handed to `onChange` when Enter is pressed with `input` typed:
   * none for blank input or an ingredient already listed, else the old list
   * with the normalised input appended.
   */
  function OnEnter(ingredients: seq<string>, input: string): (r: Option<seq<string>>)
    ensures r.Some? <==> !IsBlank(input) && Normalize(input) !in ingredients
    ensures r.Some? ==> |r.value| == |ingredients| + 1 && r.value[..|ingredients|] == ingredients
    ensures r.Some? ==> IsNormalized(r.value[|ingredients|])
  {
    var n := Normalize(input);
    if IsBlank(input) || n in ingredients then None
    else
      NormalizeIdempotent(input);
      Some(ingredients + [n])
  }

  /** The chip-removal predicate: keep every entry other than `x`. */
  function Other(x: string): string -> bool { i => i != x }

  /** The list handed to `onChange` when the chip `x` is removed. */
  function Remove(ingredients: seq<string>, x: string): (r: seq<string>)
    ensures x !in r
    ensures forall i :: 0 <= i < |ingredients| && ingredients[i] != x ==> ingredients[i] in r
  {
    Filter(ingredients, Other(x))
  }

  /** Adding keeps the list free of duplicates. */
  lemma AddKeepsUnique(ingredients: seq<string>, input: string)
    requires NoDuplicates(ingredients)
    requires OnEnter(ingredients, input).Some?
    ensures NoDuplicates(OnEnter(ingredients, input).value)
  {
    var r := OnEnter(ingredients, input).value;
    var n := |ingredients|;
    forall i, j | 0 <= i < j < |r| ensures r[i] != r[j] {
      if j == n {
        assert r[i] == ingredients[i];
      } else {
        assert r[i] == ingredients[i] && r[j] == ingredients[j];
      }
    }
  }

  /** Adding keeps every entry in normal form. */
  lemma AddKeepsNormalized(ingredients: seq<string>, input: string)
    requires forall i :: 0 <= i < |ingredients| ==> IsNormalized(ingredients[i])
    requires OnEnter(ingredients, input).Some?
    ensures var r := OnEnter(ingredients, input).value;
      forall i :: 0 <= i < |r| ==> IsNormalized(r[i])
  {
    var r := OnEnter(ingredients, input).value;
    forall i | 0 <= i < |r| ensures IsNormalized(r[i]) {
      if i < |ingredients| { assert r[i] == ingredients[i]; }
    }
  }

  /** Removal keeps the order of the remaining entries. */
  lemma RemoveKeepsOrder(ingredients: seq<string>, x: string)
    ensures IsSubseq(Remove(ingredients, x), ingredients)
  {
    FilterIsSubseq(ingredients, Other(x));
  }

  /** Removing an entry that was just added gives back the list it was added to. */
  lemma {:induction false} RemoveUndoesAdd(ingredients: seq<string>, input: string)
    requires OnEnter(ingredients, input).Some?
    ensures Remove(OnEnter(ingredients, input).value, Normalize(input)) == ingredients
  {
    var n := Normalize(input);
    var r := OnEnter(ingredients, input).value;
    assert r == ingredients + [n];
    FilterConcat(ingredients, [n], Other(n));
    FilterAll(ingredients, Other(n));
    assert [n][..0] == [];
  }

  /** The text box, the one piece of state the editor owns. */
  class IngredientField {
    var inputValue: string

    constructor ()
      ensures inputValue == ""
    {
      inputValue := "";
    }

    /** Typing replaces the text. */
    method SetInput(value: string)
      modifies this
      ensures inputValue == value
    {
      inputValue := value;
    }

    /**
     * A key press. Enter with non-blank text yields the `onChange` call
     * (if any) and always clears the box; any other press changes nothing.
     */
    method HandleKeyDown(key: string, ingredients: seq<string>) returns (call: Option<seq<string>>)
      modifies this
      ensures key == "Enter" && !IsBlank(old(inputValue)) ==>
        call == OnEnter(ingredients, old(inputValue)) && inputValue == ""
      ensures !(key == "Enter" && !IsBlank(old(inputValue))) ==>
        call == None && inputValue == old(inputValue)
    {
      call := None;
      if key == "Enter" && !IsBlank(inputValue) {
        var n := Normalize(inputValue);
        if n !in ingredients {
          call := Some(ingredients + [n]);
        }
        inputValue := "";
      }
    }
  }
}
