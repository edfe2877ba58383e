/**
 * Local usage counters (src/utils/analytics.ts): how often each command ran,
 * how many projects were generated in all and per framework, and when the
 * tool was last used. Tracking happens only while the `analytics` setting
 * is on.
 */
module Analytics {
  import opened Optional
  import opened OrderedDict
  import opened UserConfig

  const AnalyticsKey := "analytics"

  /**
   * `isEnabled`: `userConfig.get('analytics', true)`, read as a condition
   * by its callers: on when the key is unset, otherwise as the stored value
   * reads in a condition (so a stored "" also switches it off).
   */
  function IsEnabled(settings: Dict<ConfigValue>): (on: bool)
    ensures AnalyticsKey !in settings.entries ==> on
    ensures settings.Get(AnalyticsKey) == Some(Flag(false)) ==> !on
    ensures settings.Get(AnalyticsKey) == Some(Flag(true)) ==> on
    ensures AnalyticsKey in settings.entries ==> (on <==> Truthy(settings.entries[AnalyticsKey]))
  {
    match settings.Get(AnalyticsKey)
    case None => true
    case Some(v) => Truthy(v)
  }

  /** `counts[key] = (counts[key] || 0) + 1`: one more for `key`, the rest untouched. */
  function Bump(counts: Dict<nat>, key: string): (r: Dict<nat>)
    requires counts.Valid()
    ensures r.Valid()
    ensures r.Get(key) == Some(counts.Get(key).GetOr(0) + 1)
    ensures forall k :: k != key ==> r.Get(k) == counts.Get(k)
    ensures key in counts.entries ==> r.Keys() == counts.Keys()
    ensures key !in counts.entries && !IsArrayIndex(key) ==> r.Keys() == counts.Keys() + [key]
  {
    counts.Put(key, counts.Get(key).GetOr(0) + 1)
  }

  /** Counters never go down, and one bump raises exactly one of them by one. */
  lemma {:induction false} BumpOnlyIncrements(counts: Dict<nat>, key: string, k: string)
    requires counts.Valid()
    ensures counts.Get(k).GetOr(0) <= Bump(counts, key).Get(k).GetOr(0)
    ensures Bump(counts, key).Get(k).GetOr(0) == counts.Get(k).GetOr(0) + (if k == key then 1 else 0)
  {
  }

  /** The statistics `getStats` returns. */
  datatype AnalyticsData = AnalyticsData(
    commandUsage: Dict<nat>, totalGenerations: nat, frameworkUsage: Dict<nat>, lastUsed: int)

  class Analytics {
    var commandUsage: Dict<nat>
    var totalGenerations: nat
    var frameworkUsage: Dict<nat>
    var lastUsed: int

    ghost predicate Valid()
      reads this
    {
      commandUsage.Valid() && frameworkUsage.Valid()
    }

    /** The declared defaults: no counts, zero generations, never used. */
    predicate AtDefaults()
      reads this
    {
      commandUsage == Empty() && totalGenerations == 0 && frameworkUsage == Empty() && lastUsed == 0
    }

    constructor()
      ensures Valid() && AtDefaults()
    {
      commandUsage, totalGenerations, frameworkUsage, lastUsed := Empty(), 0, Empty(), 0;
    }

    /** `trackCommand`: count one more use of `command` and record the time. */
    method TrackCommand(config: ConfigStore, command: string, now: int)
      requires Valid()
      modifies this
      ensures Valid()
      ensures !IsEnabled(config.settings) ==> unchanged(this)
      ensures IsEnabled(config.settings) ==>
        commandUsage == Bump(old(commandUsage), command) && lastUsed == now &&
        totalGenerations == old(totalGenerations) && frameworkUsage == old(frameworkUsage)
    {
      if !IsEnabled(config.settings) {
        return;
      }
      var usage := commandUsage;
      usage := usage.Put(command, usage.Get(command).GetOr(0) + 1);
      assert usage == Bump(old(commandUsage), command);
      commandUsage := usage;
      lastUsed := now;
    }

    /**
     * `trackGeneration`: one more generation in all and, when a framework
     * is named (neither missing nor ""), one more for that framework.
     */
    method TrackGeneration(config: ConfigStore, framework: Option<string>)
      requires Valid()
      modifies this
      ensures Valid()
      ensures !IsEnabled(config.settings) ==> unchanged(this)
      ensures IsEnabled(config.settings) ==> totalGenerations == old(totalGenerations) + 1
      ensures IsEnabled(config.settings) && framework.Some? && framework.value != "" ==>
        frameworkUsage == Bump(old(frameworkUsage), framework.value)
      ensures framework.None? || framework == Some("") ==> frameworkUsage == old(frameworkUsage)
      ensures commandUsage == old(commandUsage) && lastUsed == old(lastUsed)
    {
      if !IsEnabled(config.settings) {
        return;
      }
      var total := totalGenerations;
      totalGenerations := total + 1;
      if framework.Some? && framework.value != "" {
        var usage := frameworkUsage;
        usage := usage.Put(framework.value, usage.Get(framework.value).GetOr(0) + 1);
        assert usage == Bump(old(frameworkUsage), framework.value);
        frameworkUsage := usage;
      }
    }

    method GetStats() returns (stats: AnalyticsData)
      ensures stats == AnalyticsData(commandUsage, totalGenerations, frameworkUsage, lastUsed)
    {
      stats := AnalyticsData(commandUsage, totalGenerations, frameworkUsage, lastUsed);
    }

    /** `clear`: back to the declared defaults. */
    method Clear()
      modifies this
      ensures Valid() && AtDefaults()
    {
      commandUsage, totalGenerations, frameworkUsage, lastUsed := Empty(), 0, Empty(), 0;
    }
  }
}
