/**
 * The user settings namespace `config` (read by src/utils/analytics.ts,
 * written by src/cli/commands/config.ts): a flat dictionary from a key to a
 * boolean or a string, in the order the keys were first set.
 */
module UserConfig {
  import opened Optional
  import opened OrderedDict

  /** What `config set` can store: `true`/`false` become booleans, the rest stays text. */
  datatype ConfigValue = Flag(b: bool) | Text(s: string)

  /** JavaScript truthiness of a stored value. */
  function Truthy(v: ConfigValue): (t: bool)
    ensures v.Flag? ==> t == v.b
    ensures v.Text? ==> (t <==> v.s != "")
  {
    match v
    case Flag(b) => b
    case Text(s) => s != ""
  }

  class ConfigStore {
    var settings: Dict<ConfigValue>

    ghost predicate Valid()
      reads this
    {
      settings.Valid()
    }

    constructor()
      ensures Valid() && settings == Empty()
    {
      settings := Empty();
    }

    /** `userConfig.set(key, value)` */
    method Set(key: string, value: ConfigValue)
      requires Valid()
      modifies this
      ensures Valid()
      ensures settings == old(settings).Put(key, value)
      ensures settings.Get(key) == Some(value)
    {
      settings := settings.Put(key, value);
    }

    /** `userConfig.get(key)`, with `undefined` as None. */
    method Get(key: string) returns (value: Option<ConfigValue>)
      ensures value.Some? <==> key in settings.entries
      ensures value.Some? ==> value.value == settings.entries[key]
    {
      value := settings.Get(key);
    }
  }
}
