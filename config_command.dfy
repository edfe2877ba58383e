/**
 * The `config` and `stats` commands (src/cli/commands/config.ts): `config`
 * dispatches `set`, `get` and `list` over the user settings; `stats` shows
 * the usage counters unless analytics is switched off.
 */
module ConfigCommand {
  import opened Optional
  import opened OrderedDict
  import opened UserConfig
  import opened Analytics

  datatype Outcome =
    | UsageError(usage: string)        // exit code 1
    | UnknownAction(action: string)    // exit code 1
    | SetDone(key: string, value: ConfigValue)
    | Found(key: string, value: ConfigValue)
    | NotFound(key: string)
    | Listing(items: seq<(string, ConfigValue)>)
    | NoConfiguration

  const SetUsage := "Usage: boil config set <key> <value>"
  const GetUsage := "Usage: boil config get <key>"

  function ExitCode(o: Outcome): (code: nat)
    ensures code == 1 <==> o.UsageError? || o.UnknownAction?
    ensures code != 1 ==> code == 0
  {
    if o.UsageError? || o.UnknownAction? then 1 else 0
  }

  /** `${value}` in a message: how a stored value prints. */
  function Display(v: ConfigValue): string {
    match v
    case Flag(b) => if b then "true" else "false"
    case Text(s) => s
  }

  /** The conversion `setConfig` applies: "true" and "false" become booleans, anything else is kept as typed. */
  function ParseValue(value: string): (v: ConfigValue)
    ensures v == Flag(true) <==> value == "true"
    ensures v == Flag(false) <==> value == "false"
    ensures v.Text? <==> value != "true" && value != "false"
    ensures v.Text? ==> v.s == value
  {
    if value == "true" then Flag(true)
    else if value == "false" then Flag(false)
    else Text(value)
  }

  /** The conversion loses nothing: the confirmation message shows what was typed. */
  lemma ParseValueDisplays(value: string)
    ensures Display(ParseValue(value)) == value
  {
  }

  /** The main line each outcome logs. */
  function Message(o: Outcome): string {
    match o
    case UsageError(usage) => usage
    case UnknownAction(action) => "Unknown action: " + action
    case SetDone(key, value) => "Set " + key + " = " + Display(value)
    case Found(key, value) => key + ": " + Display(value)
    case NotFound(key) => "Key \"" + key + "\" not found"
    case Listing(_) => "Current configuration:"
    case NoConfiguration => "No configuration set"
  }

  /** `!key`: a key that is missing or empty. */
  predicate Missing(key: Option<string>) {
    key.None? || key.value == ""
  }

  /** `setConfig`: parse the text step by step, then store it. */
  method SetConfig(store: ConfigStore, key: string, value: string) returns (outcome: Outcome)
    requires store.Valid()
    modifies store
    ensures store.Valid()
    ensures store.settings == old(store.settings).Put(key, ParseValue(value))
    ensures outcome == SetDone(key, ParseValue(value))
    ensures Message(outcome) == "Set " + key + " = " + value
  {
    var parsed := Text(value);
    if value == "true" {
      parsed := Flag(true);
    }
    if value == "false" {
      parsed := Flag(false);
    }
    store.Set(key, parsed);
    ParseValueDisplays(value);
    outcome := SetDone(key, parsed);
  }

  /** `getConfig`: the stored value, or a not-found warning. */
  method GetConfig(store: ConfigStore, key: string) returns (outcome: Outcome)
    ensures key in store.settings.entries ==> outcome == Found(key, store.settings.entries[key])
    ensures key !in store.settings.entries ==> outcome == NotFound(key)
  {
    var value := store.Get(key);
    if value.None? {
      outcome := NotFound(key);
    } else {
      outcome := Found(key, value.value);
    }
  }

  /** `listConfig`: every setting in key order, or a note that there is none. */
  method ListConfig(store: ConfigStore) returns (outcome: Outcome)
    requires store.Valid()
    ensures store.settings.Keys() == [] <==> outcome == NoConfiguration
    ensures store.settings.Keys() != [] ==> outcome == Listing(store.settings.Items())
    ensures outcome.Listing? ==>
      |outcome.items| == |store.settings.entries| &&
      forall i :: 0 <= i < |outcome.items| ==> outcome.items[i].0 in store.settings.entries
  {
    store.settings.SizeIsKeyCount();
    if |store.settings.Keys()| == 0 {
      return NoConfiguration;
    }
    outcome := Listing(store.settings.Items());
  }

  /**
   * `configCommand(action, key, value)`: a missing key (or, for `set`, a
   * missing value) and an unknown action end with exit code 1 and leave the
   * settings as they were.
   */
  method Run(store: ConfigStore, action: string, key: Option<string>, value: Option<string>)
    returns (outcome: Outcome)
    requires store.Valid()
    modifies store
    ensures store.Valid()
    ensures ExitCode(outcome) == 1 ==> store.settings == old(store.settings)
    ensures action == "set" && (Missing(key) || value.None?) ==> outcome == UsageError(SetUsage)
    ensures action == "set" && !Missing(key) && value.Some? ==>
      outcome == SetDone(key.value, ParseValue(value.value)) &&
      store.settings == old(store.settings).Put(key.value, ParseValue(value.value))
    ensures action == "get" && Missing(key) ==> outcome == UsageError(GetUsage)
    ensures action == "get" && !Missing(key) && key.value in store.settings.entries ==>
      outcome == Found(key.value, store.settings.entries[key.value])
    ensures action == "get" && !Missing(key) && key.value !in store.settings.entries ==>
      outcome == NotFound(key.value)
    ensures action == "list" && store.settings.Keys() == [] ==> outcome == NoConfiguration
    ensures action == "list" && store.settings.Keys() != [] ==> outcome == Listing(store.settings.Items())
    ensures action != "set" ==> store.settings == old(store.settings)
    ensures action !in {"set", "get", "list"} ==> outcome == UnknownAction(action)
  {
    match action {
      case "set" =>
        if Missing(key) || value.None? {
          return UsageError(SetUsage);
        }
        outcome := SetConfig(store, key.value, value.value);
      case "get" =>
        if Missing(key) {
          return UsageError(GetUsage);
        }
        outcome := GetConfig(store, key.value);
      case "list" =>
        outcome := ListConfig(store);
      case _ =>
        outcome := UnknownAction(action);
    }
  }

  /** What `stats` shows. Empty usage lists are sections it leaves out. */
  datatype StatsReport =
    | AnalyticsDisabled
    | Report(totalGenerations: nat, lastUsed: Option<int>,
             commandUsage: seq<(string, nat)>, frameworkUsage: seq<(string, nat)>)

  /** `statsCommand`: only the disabled warning when analytics is off. */
  method StatsCommand(config: ConfigStore, analytics: Analytics) returns (report: StatsReport)
    requires analytics.Valid()
    ensures report == AnalyticsDisabled <==> !IsEnabled(config.settings)
    ensures report.Report? ==>
      report.totalGenerations == analytics.totalGenerations &&
      report.lastUsed == (if analytics.lastUsed != 0 then Some(analytics.lastUsed) else None) &&
      report.commandUsage == analytics.commandUsage.Items() &&
      report.frameworkUsage == analytics.frameworkUsage.Items()
  {
    if !IsEnabled(config.settings) {
      return AnalyticsDisabled;
    }
    var stats := analytics.GetStats();
    var last := if stats.lastUsed != 0 then Some(stats.lastUsed) else None;
    report := Report(stats.totalGenerations, last, stats.commandUsage.Items(), stats.frameworkUsage.Items());
  }

  /** `config set analytics false`, then `stats`: only the disabled warning. */
  method DisableThenStats(config: ConfigStore, analytics: Analytics) returns (report: StatsReport)
    requires config.Valid() && analytics.Valid()
    modifies config
    ensures !IsEnabled(config.settings)
    ensures report == AnalyticsDisabled
  {
    var _ := Run(config, "set", Some(AnalyticsKey), Some("false"));
    report := StatsCommand(config, analytics);
  }
}
