/**
 * The strategy manager: a registry of named strategies kept in four
 * dictionaries (registrations, classes, instances and run statistics), the
 * enable/disable switches, and the guards that decide which strategies run.
 * The backtest a run performs is given as a function from the strategy name
 * and its merged configuration to the statistics it reports.
 */
module StrategyManager {
  import opened Wrappers
  import opened Seqs
  import opened Config

  /** One entry of `strategies`: name, class, description, configuration and the enabled flag. */
  datatype Registration = Registration(name: string, cls: string, description: Json, config: Table, enabled: bool)

  /** What `run_single_strategy` returns: the error table for an unknown name, or the statistics. */
  datatype RunResult = UnknownStrategy(name: string) | Ran(stats: Json)

  /** `config or {}` on an optional table. */
  function OrEmpty(config: Option<Table>): (t: Table)
    ensures config.Some? && |config.value| > 0 ==> t == config.value
    ensures config.None? || |config.value| == 0 ==> t == []
  {
    if config.Some? then config.value else []
  }

  /** The configuration a run uses: the registered table, updated by a non-empty override. */
  function RunConfig(registered: Table, override: Option<Table>): Table
  {
    if override.Some? && |override.value| > 0 then Update(registered, override.value) else registered
  }

  class Manager {
    var strategies: map<string, Registration>
    var strategyClasses: map<string, string>
    var strategyInstances: map<string, Json>
    var stats: map<string, Json>

    /** The four dictionaries agree: classes exactly for the registered names, instances and stats only for them. */
    ghost predicate Valid()
      reads this
    {
      Agree(strategies, strategyClasses, strategyInstances, stats)
    }

    /** The defaults read the `etf_rotation` and `grid_trading` entries, which must be tables. */
    static predicate DefaultsReadable(config: Table)
    {
      GetStrategyConfig(config, "etf_rotation").Some? && GetStrategyConfig(config, "etf_rotation").value.JDict?
      && GetStrategyConfig(config, "grid_trading").Some? && GetStrategyConfig(config, "grid_trading").value.JDict?
    }

    /** The two default strategies, described and configured from their entries of the loaded configuration. */
    constructor (config: Table)
      requires DefaultsReadable(config)
      ensures Valid()
      ensures strategyInstances == map[] && stats == map[]
      ensures strategyClasses == map["etf_rotation" := "ETFRotationStrategy", "grid_trading" := "GridTradingStrategy"]
      ensures strategies.Keys == {"etf_rotation", "grid_trading"}
      ensures strategies["etf_rotation"] == Registration("etf_rotation", "ETFRotationStrategy",
        GetOr(GetStrategyConfig(config, "etf_rotation").value.entries, "description", JStr("ETF轮动策略")),
        GetStrategyConfig(config, "etf_rotation").value.entries, true)
      ensures strategies["grid_trading"] == Registration("grid_trading", "GridTradingStrategy",
        GetOr(GetStrategyConfig(config, "grid_trading").value.entries, "description", JStr("网格交易策略")),
        GetStrategyConfig(config, "grid_trading").value.entries, true)
    {
      var etf := GetStrategyConfig(config, "etf_rotation").value.entries;
      var grid := GetStrategyConfig(config, "grid_trading").value.entries;
      strategyInstances := map[];
      stats := map[];
      strategyClasses := map["etf_rotation" := "ETFRotationStrategy", "grid_trading" := "GridTradingStrategy"];
      strategies := map[
        "etf_rotation" := Registration("etf_rotation", "ETFRotationStrategy",
                                       GetOr(etf, "description", JStr("ETF轮动策略")), etf, true),
        "grid_trading" := Registration("grid_trading", "GridTradingStrategy",
                                       GetOr(grid, "description", JStr("网格交易策略")), grid, true)];
    }

    /** `register_strategy`: both the class and the registration are written, enabled; a name already present is overwritten. */
    method RegisterStrategy(name: string, cls: string, description: Json, config: Option<Table>)
      requires Valid()
      modifies this
      ensures Valid()
      ensures strategyClasses == old(strategyClasses)[name := cls]
      ensures strategies == old(strategies)[name := Registration(name, cls, description, OrEmpty(config), true)]
      ensures strategyInstances == old(strategyInstances) && stats == old(stats)
    {
      strategyClasses := strategyClasses[name := cls];
      strategies := strategies[name := Registration(name, cls, description, OrEmpty(config), true)];
    }

    /** `unregister_strategy`: a registered name leaves all four dictionaries; any other name changes nothing. */
    method UnregisterStrategy(name: string)
      requires Valid()
      modifies this
      ensures Valid()
      ensures name in old(strategies) ==>
        strategies == old(strategies) - {name} && strategyClasses == old(strategyClasses) - {name}
        && strategyInstances == old(strategyInstances) - {name} && stats == old(stats) - {name}
      ensures name !in old(strategies) ==>
        strategies == old(strategies) && strategyClasses == old(strategyClasses)
        && strategyInstances == old(strategyInstances) && stats == old(stats)
    {
      if name in strategies {
        AgreeRemove(strategies, strategyClasses, strategyInstances, stats, name);
        strategies := strategies - {name};
        if name in strategyClasses {
          strategyClasses := strategyClasses - {name};
        }
        if name in strategyInstances {
          strategyInstances := strategyInstances - {name};
        } else {
          RemoveAbsent(strategyInstances, name);
        }
        if name in stats {
          stats := stats - {name};
        } else {
          RemoveAbsent(stats, name);
        }
      }
    }

    /** `get_strategy`. */
    function GetStrategy(name: string): (r: Option<Registration>)
      reads this
      ensures r.Some? <==> name in strategies
      ensures r.Some? ==> r.value == strategies[name]
    {
      if name in strategies then Some(strategies[name]) else None
    }

    /** `list_strategies`: all registrations, or only the enabled ones. */
    function ListStrategies(enabledOnly: bool): (r: map<string, Registration>)
      reads this
      ensures forall n :: n in r <==> n in strategies && (!enabledOnly || strategies[n].enabled)
      ensures forall n :: n in r ==> r[n] == strategies[n]
    {
      if enabledOnly then map n | n in strategies && strategies[n].enabled :: strategies[n] else strategies
    }

    /** `enable_strategy`: only the named entry's flag changes, and only when it is registered. */
    method EnableStrategy(name: string)
      requires Valid()
      modifies this
      ensures Valid()
      ensures name in old(strategies) ==> strategies == old(strategies)[name := old(strategies)[name].(enabled := true)]
      ensures name !in old(strategies) ==> strategies == old(strategies)
      ensures strategyClasses == old(strategyClasses) && strategyInstances == old(strategyInstances) && stats == old(stats)
    {
      if name in strategies {
        strategies := strategies[name := strategies[name].(enabled := true)];
      }
    }

    /** `disable_strategy`. */
    method DisableStrategy(name: string)
      requires Valid()
      modifies this
      ensures Valid()
      ensures name in old(strategies) ==> strategies == old(strategies)[name := old(strategies)[name].(enabled := false)]
      ensures name !in old(strategies) ==> strategies == old(strategies)
      ensures strategyClasses == old(strategyClasses) && strategyInstances == old(strategyInstances) && stats == old(stats)
    {
      if name in strategies {
        strategies := strategies[name := strategies[name].(enabled := false)];
      }
    }

    /**
     * `run_single_strategy`: an unknown name gives the error result and
     * changes nothing; otherwise the backtest runs on the registered
     * configuration updated by the override, and its statistics are kept.
     */
    method RunSingleStrategy(name: string, override: Option<Table>, backtest: (string, Table) -> Json)
      returns (r: RunResult)
      requires Valid()
      modifies this
      ensures Valid()
      ensures name !in old(strategyClasses) ==> r == UnknownStrategy(name) && stats == old(stats)
      ensures name in old(strategyClasses) ==>
        r == Ran(backtest(name, RunConfig(old(strategies)[name].config, override)))
        && stats == old(stats)[name := r.stats]
      ensures strategies == old(strategies) && strategyClasses == old(strategyClasses)
      ensures strategyInstances == old(strategyInstances)
    {
      if name !in strategyClasses {
        return UnknownStrategy(name);
      }
      var info := strategies[name];
      var config := info.config;
      if override.Some? && |override.value| > 0 {
        config := Update(config, override.value);
      }
      var result := backtest(name, config);
      stats := stats[name := result];
      return Ran(result);
    }

    /**
     * `run_multiple_strategies`: each requested name that is registered and
     * enabled runs once with its own override; the others are skipped. The
     * statistics of the runs replace any earlier ones.
     */
    method RunMultipleStrategies(configs: seq<(string, Table)>, backtest: (string, Table) -> Json)
      returns (results: map<string, Json>)
      requires Valid()
      modifies this
      ensures Valid()
      ensures results == RunsOf(configs, old(strategies), backtest)
      ensures stats == old(stats) + results
      ensures strategies == old(strategies) && strategyClasses == old(strategyClasses)
      ensures strategyInstances == old(strategyInstances)
    {
      results := map[];
      UnionEmpty(stats);
      for i := 0 to |configs|
        invariant Valid()
        invariant strategies == old(strategies) && strategyClasses == old(strategyClasses)
        invariant strategyInstances == old(strategyInstances)
        invariant results == RunsOf(configs[..i], strategies, backtest)
        invariant stats == old(stats) + results
      {
        RunsOfStep(configs, i, strategies, backtest);
        var ran := RunRequest(configs[i].0, configs[i].1, backtest);
        if ran.Some? {
          UnionUpdate(old(stats), results, configs[i].0, ran.value);
          results := results[configs[i].0 := ran.value];
        }
      }
      assert configs[..|configs|] == configs;
    }

    /** One request of `run_multiple_strategies`: skipped unless registered and enabled, else one single run. */
    method RunRequest(name: string, config: Table, backtest: (string, Table) -> Json) returns (ran: Option<Json>)
      requires Valid()
      modifies this
      ensures Valid()
      ensures ran.Some? <==> name in old(strategies) && old(strategies)[name].enabled
      ensures ran.Some? ==> (ran.value == backtest(name, RunConfig(old(strategies)[name].config, Some(config)))
                             && stats == old(stats)[name := ran.value])
      ensures ran.None? ==> stats == old(stats)
      ensures strategies == old(strategies) && strategyClasses == old(strategyClasses)
      ensures strategyInstances == old(strategyInstances)
    {
      var info := GetStrategy(name);
      if info.None? || !info.value.enabled {
        return None;
      }
      var r := RunSingleStrategy(name, Some(config), backtest);
      return Some(r.stats);
    }
  }

  /** The statistics `run_multiple_strategies` collects: one run per registered, enabled name, later names last. */
  function RunsOf(configs: seq<(string, Table)>, registry: map<string, Registration>,
                  backtest: (string, Table) -> Json): (r: map<string, Json>)
    ensures forall n :: n in r ==> n in registry
    decreases |configs|
  {
    if |configs| == 0 then map[]
    else
      var prev := RunsOf(configs[..|configs| - 1], registry, backtest);
      var (n, c) := configs[|configs| - 1];
      if n in registry && registry[n].enabled then prev[n := backtest(n, RunConfig(registry[n].config, Some(c)))]
      else prev
  }

  lemma RunsOfStep(configs: seq<(string, Table)>, i: nat, registry: map<string, Registration>,
                   backtest: (string, Table) -> Json)
    requires i < |configs|
    ensures configs[i].0 in registry && registry[configs[i].0].enabled ==>
              RunsOf(configs[..i + 1], registry, backtest) == RunsOf(configs[..i], registry, backtest)[configs[i].0 :=
                backtest(configs[i].0, RunConfig(registry[configs[i].0].config, Some(configs[i].1)))]
    ensures !(configs[i].0 in registry && registry[configs[i].0].enabled) ==>
      RunsOf(configs[..i + 1], registry, backtest) == RunsOf(configs[..i], registry, backtest)
  {
    assert configs[..i + 1][..i] == configs[..i];
  }

  /**
   * Exactly the requested names that are registered and enabled are run,
   * each with the registered configuration updated by its own override.
   */
  lemma {:induction false} RunsOfExactly(configs: seq<(string, Table)>, registry: map<string, Registration>,
                                         backtest: (string, Table) -> Json, i: nat)
    requires DistinctKeys(configs) && i < |configs|
    ensures configs[i].0 in RunsOf(configs, registry, backtest) <==>
      configs[i].0 in registry && registry[configs[i].0].enabled
    ensures configs[i].0 in RunsOf(configs, registry, backtest) ==>
      RunsOf(configs, registry, backtest)[configs[i].0]
        == backtest(configs[i].0, RunConfig(registry[configs[i].0].config, Some(configs[i].1)))
    decreases |configs|
  {
    var init := configs[..|configs| - 1];
    var last := configs[|configs| - 1];
    if i < |configs| - 1 {
      assert init[i] == configs[i];
      assert DistinctKeys(init);
      RunsOfExactly(init, registry, backtest, i);
      assert last.0 != configs[i].0;
      var prev := RunsOf(init, registry, backtest);
      assert RunsOf(configs, registry, backtest) == prev
        || RunsOf(configs, registry, backtest) == prev[last.0 := backtest(last.0, RunConfig(registry[last.0].config, Some(last.1)))];
    } else if last.0 in RunsOf(init, registry, backtest) {
      RunsOfRequested(init, registry, backtest, last.0);
    }
  }

  /** A name no request mentions is never run. */
  lemma {:induction false} RunsOfRequested(configs: seq<(string, Table)>, registry: map<string, Registration>,
                                           backtest: (string, Table) -> Json, n: string)
    requires n in RunsOf(configs, registry, backtest)
    ensures HasKey(configs, n)
    decreases |configs|
  {
    var init := configs[..|configs| - 1];
    if n != configs[|configs| - 1].0 {
      RunsOfRequested(init, registry, backtest, n);
      var j :| 0 <= j < |init| && init[j].0 == n;
      assert configs[j].0 == n;
    }
  }

  ghost predicate Agree(strategies: map<string, Registration>, classes: map<string, string>,
                        instances: map<string, Json>, stats: map<string, Json>)
  {
    (forall n :: n in strategies <==> n in classes)
    && (forall n :: n in strategies ==> strategies[n].name == n && strategies[n].cls == classes[n])
    && (forall n :: n in instances ==> n in strategies)
    && (forall n :: n in stats ==> n in strategies)
  }

  /** Removing one name from all four dictionaries keeps them in agreement. */
  lemma AgreeRemove(strategies: map<string, Registration>, classes: map<string, string>,
                    instances: map<string, Json>, stats: map<string, Json>, name: string)
    requires Agree(strategies, classes, instances, stats)
    ensures Agree(strategies - {name}, classes - {name}, instances - {name}, stats - {name})
  {
  }

  lemma UnionEmpty<V>(m: map<string, V>)
    ensures m + map[] == m
  {
  }

  lemma UnionUpdate<V>(m: map<string, V>, n: map<string, V>, k: string, v: V)
    ensures m + n[k := v] == (m + n)[k := v]
  {
  }

  lemma RemoveAbsent<V>(m: map<string, V>, name: string)
    requires name !in m
    ensures m - {name} == m
  {
  }
}
