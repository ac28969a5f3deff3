/**
 * The strategy factory: a registry of strategy classes, the merge of a
 * strategy's configured table with caller overrides, and creation of one or
 * many instances. Instantiating a class is given as a predicate saying which
 * (class, merged table) pairs raise in the constructor.
 */
module StrategyFactory {
  import opened Wrappers
  import opened Seqs
  import opened Config

  /**
   * `_merge_config`: a copy of the strategy's configured table, updated by a
   * true override, with `params` added as `{}` when missing. `None` where the
   * source raises: the strategies section, the strategy's entry or a true
   * override is not a table.
   */
  function MergeConfig(config: Table, name: string, override: Json): (r: Option<Table>)
    ensures r.None? <==> (GetStrategyConfig(config, name).None? || !GetStrategyConfig(config, name).value.JDict?
                          || (Truthy(override) && !override.JDict?))
    ensures r.Some? ==> HasKey(r.value, "params")
  {
    match GetStrategyConfig(config, name)
    case None => None
    case Some(base) =>
      if !base.JDict? then None
      else if Truthy(override) && !override.JDict? then None
      else
        var merged := if Truthy(override) then Update(base.entries, override.entries) else base.entries;
        Some(if HasKey(merged, "params") then merged else Set(merged, "params", JDict([])))
  }

  /**
   * Merging keeps every configured key the override does not name, lets the
   * override win where it does, and holds `params` (as `{}` if nobody set it).
   */
  lemma MergeConfigGet(config: Table, name: string, override: Json, base: Table, merged: Table, k: string)
    requires MergeConfig(config, name, override) == Some(merged)
    requires GetStrategyConfig(config, name) == Some(JDict(base))
    requires override.JDict? ==> DistinctKeys(override.entries)
    ensures Truthy(override) && HasKey(override.entries, k) ==> Get(merged, k) == Get(override.entries, k)
    ensures (!Truthy(override) || !HasKey(override.entries, k)) && HasKey(base, k) ==> Get(merged, k) == Get(base, k)
    ensures (!Truthy(override) || !HasKey(override.entries, k)) && !HasKey(base, k) ==>
      Get(merged, k) == (if k == "params" then Some(JDict([])) else None)
  {
    if Truthy(override) {
      UpdateGet(base, override.entries, k);
    }
  }

  /** A created instance: the class it was built from and the merged table it received. */
  datatype Instance = Instance(cls: string, config: Table)

  class Factory {
    const config: Table
    var strategyClasses: map<string, string>

    /**
     * The default registration imports a module that does not exist; the
     * `ImportError` is swallowed, so the registry starts empty.
     */
    constructor (config: Table)
      ensures this.config == config && strategyClasses == map[]
    {
      this.config := config;
      strategyClasses := map[];
    }

    /** `register_strategy`: a later registration of the same name replaces the class. */
    method RegisterStrategy(name: string, cls: string)
      modifies this
      ensures strategyClasses == old(strategyClasses)[name := cls]
    {
      strategyClasses := strategyClasses[name := cls];
    }

    /** What `create_strategy` does, as a value; `Raises` where the merge raises outside the `try`. */
    function Creation(name: string, override: Json, fails: (string, Table) -> bool): (r: Outcome)
      reads this
      ensures name !in strategyClasses ==> r == NotCreated
      ensures r.Created? ==> (name in strategyClasses && r.instance.cls == strategyClasses[name]
        && MergeConfig(config, name, override) == Some(r.instance.config)
        && !fails(strategyClasses[name], r.instance.config))
      ensures r.Raises? <==> name in strategyClasses && MergeConfig(config, name, override).None?
      ensures name in strategyClasses && MergeConfig(config, name, override).Some? ==>
        (r.Created? <==> !fails(strategyClasses[name], MergeConfig(config, name, override).value))
      ensures (name in strategyClasses && MergeConfig(config, name, override).Some?
               && !fails(strategyClasses[name], MergeConfig(config, name, override).value)) ==>
        r == Created(Instance(strategyClasses[name], MergeConfig(config, name, override).value))
    {
      if name !in strategyClasses then NotCreated
      else
        match MergeConfig(config, name, override)
        case None => Raises
        case Some(merged) =>
          if fails(strategyClasses[name], merged) then NotCreated
          else Created(Instance(strategyClasses[name], merged))
    }

    /** `create_strategy`. */
    method CreateStrategy(name: string, override: Json, fails: (string, Table) -> bool) returns (r: Outcome)
      ensures r == Creation(name, override, fails)
    {
      if name !in strategyClasses {
        return NotCreated;
      }
      var cls := strategyClasses[name];
      var merged := MergeConfig(config, name, override);
      if merged.None? {
        return Raises;
      }
      if fails(cls, merged.value) {
        return NotCreated;
      }
      return Created(Instance(cls, merged.value));
    }

    /** The names `batch_create_strategies` keeps, in order, up to the first creation that raises. */
    function Batch(configs: seq<(string, Json)>, fails: (string, Table) -> bool): (r: Option<seq<(string, Instance)>>)
      reads this
      decreases |configs|
    {
      if |configs| == 0 then Some([])
      else
        var last := configs[|configs| - 1];
        match Batch(configs[..|configs| - 1], fails)
        case None => None
        case Some(kept) =>
          match Creation(last.0, last.1, fails)
          case Raises => None
          case NotCreated => Some(kept)
          case Created(instance) => Some(kept + [(last.0, instance)])
    }

    /**
     * `batch_create_strategies`: with no creation raising, it keeps exactly
     * the names whose creation returned an instance.
     */
    method BatchCreateStrategies(configs: seq<(string, Json)>, fails: (string, Table) -> bool)
      returns (instances: Option<seq<(string, Instance)>>)
      ensures instances == Batch(configs, fails)
    {
      var kept := [];
      for i := 0 to |configs|
        invariant Batch(configs[..i], fails) == Some(kept)
      {
        assert configs[..i + 1][..i] == configs[..i];
        var r := CreateStrategy(configs[i].0, configs[i].1, fails);
        match r {
          case Raises =>
            BatchStopsAtRaise(configs, i, fails);
            return None;
          case NotCreated =>
          case Created(instance) =>
            kept := kept + [(configs[i].0, instance)];
        }
      }
      assert configs[..|configs|] == configs;
      return Some(kept);
    }

    /** Once a creation raises, the whole batch raises. */
    lemma BatchStopsAtRaise(configs: seq<(string, Json)>, i: nat, fails: (string, Table) -> bool)
      requires i < |configs| && Creation(configs[i].0, configs[i].1, fails).Raises?
      ensures Batch(configs, fails).None?
      decreases |configs| - i
    {
      if i < |configs| - 1 {
        assert configs[..|configs| - 1][i] == configs[i];
        BatchStopsAtRaise(configs[..|configs| - 1], i, fails);
      }
    }

    /** The batch raises only when some creation in it raises. */
    lemma {:induction false} BatchRaisesOnlyAtRaise(configs: seq<(string, Json)>, fails: (string, Table) -> bool)
      requires Batch(configs, fails).None?
      ensures exists i :: 0 <= i < |configs| && Creation(configs[i].0, configs[i].1, fails).Raises?
      decreases |configs|
    {
      var init := configs[..|configs| - 1];
      var last := configs[|configs| - 1];
      if Batch(init, fails).None? {
        BatchRaisesOnlyAtRaise(init, fails);
        var i :| 0 <= i < |init| && Creation(init[i].0, init[i].1, fails).Raises?;
        assert configs[i] == init[i];
      } else {
        assert Creation(last.0, last.1, fails).Raises?;
      }
    }

    /** Every kept entry is a configured name whose creation returned that instance. */
    lemma {:induction false} BatchKeepsCreated(configs: seq<(string, Json)>, fails: (string, Table) -> bool,
                                               n: string, inst: Instance)
      requires Batch(configs, fails).Some? && (n, inst) in Batch(configs, fails).value
      ensures exists i :: 0 <= i < |configs| && configs[i].0 == n && Creation(n, configs[i].1, fails) == Created(inst)
      decreases |configs|
    {
      var init := configs[..|configs| - 1];
      var last := configs[|configs| - 1];
      if (n, inst) in Batch(init, fails).value {
        BatchKeepsCreated(init, fails, n, inst);
        var i :| 0 <= i < |init| && init[i].0 == n && Creation(n, init[i].1, fails) == Created(inst);
        assert configs[i] == init[i];
      } else {
        assert last.0 == n && Creation(n, last.1, fails) == Created(inst);
      }
    }

    /** Every configured name whose creation returns an instance is kept with it. */
    lemma {:induction false} BatchKeepsAllCreated(configs: seq<(string, Json)>, fails: (string, Table) -> bool, i: nat)
      requires Batch(configs, fails).Some? && i < |configs|
      requires Creation(configs[i].0, configs[i].1, fails).Created?
      ensures (configs[i].0, Creation(configs[i].0, configs[i].1, fails).instance) in Batch(configs, fails).value
      decreases |configs|
    {
      if i < |configs| - 1 {
        var init := configs[..|configs| - 1];
        assert init[i] == configs[i];
        BatchKeepsAllCreated(init, fails, i);
      }
    }
  }

  /** The three results of `create_strategy`: an instance, `None`, or an exception from the merge. */
  datatype Outcome = Created(instance: Instance) | NotCreated | Raises
}
