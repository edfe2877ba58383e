/**
 * Named presets (src/utils/preset-manager.ts): a dictionary from a
 * user-chosen name to a bundle of generation options, persisted as one
 * object. The object is modelled as the `presets` field of a PresetManager.
 */
module Presets {
  import opened Optional
  import opened OrderedDict

  datatype Theme = Light | Dark
  datatype IconLibrary = Heroicons | FontAwesome | NoIcons

  /** The saved options; absent optional fields are None. */
  datatype PresetData = PresetData(
    framework: string,
    withJs: Option<bool>,
    withGit: Option<bool>,
    theme: Option<Theme>,
    icons: Option<IconLibrary>)

  /** Saving and then loading a name gives back exactly what was saved, and
      no other name sees a difference. */
  lemma {:induction false} SaveLoadRoundTrip(presets: Dict<PresetData>, name: string, data: PresetData, other: string)
    requires presets.Valid()
    ensures presets.Put(name, data).Get(name) == Some(data)
    ensures other != name ==> presets.Put(name, data).Get(other) == presets.Get(other)
    ensures name in presets.Put(name, data).Keys()
  {
  }

  class PresetManager {
    /** The persisted `presets` object; it defaults to {}. */
    var presets: Dict<PresetData>

    ghost predicate Valid()
      reads this
    {
      presets.Valid()
    }

    constructor()
      ensures Valid() && presets == Empty()
    {
      presets := Empty();
    }

    /** `save`: store `data` under `name`, replacing any earlier preset of that name. */
    method Save(name: string, data: PresetData)
      requires Valid()
      modifies this
      ensures Valid()
      ensures presets == old(presets).Put(name, data)
      ensures presets.Get(name) == Some(data)
      ensures forall n :: n != name ==> presets.Get(n) == old(presets).Get(n)
    {
      var all := presets;
      all := all.Put(name, data);
      presets := all;
    }

    /** `load`: the preset saved under `name`, or null. */
    method Load(name: string) returns (data: Option<PresetData>)
      ensures data.Some? <==> name in presets.entries
      ensures data.Some? ==> data.value == presets.entries[name]
    {
      data := presets.Get(name);
    }

    /** `delete`: true and the name removed when it was saved; false and nothing changed otherwise. */
    method Delete(name: string) returns (deleted: bool)
      requires Valid()
      modifies this
      ensures Valid()
      ensures deleted <==> name in old(presets).entries
      ensures presets.entries == old(presets).entries - {name}
      ensures !deleted ==> presets == old(presets)
      ensures name !in presets.Keys()
    {
      var all := presets;
      if name in all.entries {
        all := all.Remove(name);
        presets := all;
        return true;
      }
      return false;
    }

    /**
     * `list`: every saved name once, in `Object.keys` order: names that are
     * array indices first, in ascending numeric order, then the others in
     * the order they were first saved.
     */
    method List() returns (names: seq<string>)
      requires Valid()
      ensures names == presets.Keys()
      ensures Distinct(names) && |names| == |presets.entries|
      ensures forall n :: n in names <==> n in presets.entries
      ensures forall i, j :: 0 <= i < j < |names| && IsArrayIndex(names[j]) ==>
        IsArrayIndex(names[i]) && IndexValue(names[i]) <= IndexValue(names[j])
    {
      presets.SizeIsKeyCount();
      presets.KeysOrder();
      names := presets.Keys();
    }

    method GetAll() returns (all: Dict<PresetData>)
      ensures all == presets
    {
      all := presets;
    }

    /** `exists`: whether a preset is saved under `name`. */
    method Exists(name: string) returns (present: bool)
      requires Valid()
      ensures present <==> name in presets.entries
      ensures present <==> name in presets.Keys()
    {
      present := name in presets.entries;
    }
  }
}
