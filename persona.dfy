// The persona store (a key-value browser store under one fixed key) and the
// banner that shows the stored persona's display name.
module Persona {
  import opened Wrappers

  const PersonaKey := "user_persona"

  /** The browser's key-value store, present only when there is a window. */
  class PersonaStore {
    var hasWindow: bool
    var storage: map<string, string>

    constructor (hasWindow: bool, storage: map<string, string>)
      ensures this.hasWindow == hasWindow && this.storage == storage
    {
      this.hasWindow := hasWindow;
      this.storage := storage;
    }

    /** The stored persona: none without a window or when the key was never set. */
    function GetPersona(): (r: Option<string>)
      reads this
      ensures r.Some? <==> hasWindow && PersonaKey in storage
      ensures r.Some? ==> r.value == storage[PersonaKey]
    {
      if !hasWindow then None
      else if PersonaKey in storage then Some(storage[PersonaKey])
      else None
    }

    /**
     * Stores `persona` under the persona key. Without a window the store does
     * not exist and the write fails (`ok` is false) with nothing changed.
     */
    method SetPersona(persona: string) returns (ok: bool)
      modifies this
      ensures ok == hasWindow && hasWindow == old(hasWindow)
      ensures ok ==> storage == old(storage)[PersonaKey := persona]
      ensures !ok ==> storage == old(storage)
      ensures ok ==> GetPersona() == Some(persona)
    {
      ok := hasWindow;
      if hasWindow {
        storage := storage[PersonaKey := persona];
      }
    }
  }

  /** Writing the persona leaves every other key as it was. */
  lemma SetLeavesOtherKeys(storage: map<string, string>, persona: string, key: string)
    requires key != PersonaKey
    ensures key in storage[PersonaKey := persona] <==> key in storage
    ensures key in storage ==> storage[PersonaKey := persona][key] == storage[key]
  {
  }

  /** What the banner shows: a display name and whether the edit button appears. */
  datatype Banner = Banner(displayName: string, showEdit: bool)

  /** The display name for a known persona key; any other key reads "You". */
  function DisplayName(persona: string): (name: string)
    ensures persona !in {"busy_professional", "student", "health_focused", "family_cook"} ==> name == "You"
  {
    match persona
    case "busy_professional" => "Busy Professionals"
    case "student" => "Students"
    case "health_focused" => "Health-Focused Individuals"
    case "family_cook" => "Family Cooks"
    case _ => "You"
  }

  /** The banner for a stored persona: nothing when none (or an empty one) is stored. */
  function BannerFor(persona: Option<string>, hasOnEdit: bool): (b: Option<Banner>)
    ensures b.Some? <==> persona.Some? && persona.value != ""
    ensures b.Some? ==> b.value.showEdit == hasOnEdit && b.value.displayName == DisplayName(persona.value)
  {
    if persona.None? || persona.value == "" then None
    else Some(Banner(DisplayName(persona.value), hasOnEdit))
  }

  /** Each display name belongs to exactly one known key, and "You" to none of them. */
  lemma DisplayNamesDistinct(a: string, b: string)
    requires DisplayName(a) == DisplayName(b) && DisplayName(a) != "You"
    ensures a == b
  {
  }
}
