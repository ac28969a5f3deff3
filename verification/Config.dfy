/**
 * The configuration tables a TOML file loads into, and the getters that read
 * sections of them with defaults. A getter that calls `.get` on a value that
 * is not a table raises `AttributeError` in the source; here it yields `None`.
 */
module Config {
  import opened Wrappers
  import opened Seqs

  /** A loaded configuration value. */
  datatype Json =
    | JNull
    | JBool(b: bool)
    | JNum(x: real)
    | JStr(s: string)
    | JList(items: seq<Json>)
    | JDict(entries: seq<(string, Json)>)

  /** A table: an insertion-ordered dictionary with distinct keys. */
  type Table = seq<(string, Json)>

  /** Python truthiness: `None`, `False`, zero, and empty strings, lists and tables are false. */
  predicate Truthy(v: Json)
  {
    match v
    case JNull => false
    case JBool(b) => b
    case JNum(x) => x != 0.0
    case JStr(s) => |s| > 0
    case JList(items) => |items| > 0
    case JDict(entries) => |entries| > 0
  }

  /** `d.get(key, default)`. */
  function GetOr(d: Table, key: string, default: Json): (v: Json)
    ensures !HasKey(d, key) ==> v == default
    ensures HasKey(d, key) ==> Some(v) == Get(d, key)
  {
    match Get(d, key)
    case Some(x) => x
    case None => default
  }

  /** `d[key] = value` on an insertion-ordered table: replaced in place, or appended. */
  function Set(d: Table, key: string, value: Json): (r: Table)
    ensures HasKey(r, key) && Get(r, key) == Some(value)
    ensures forall k :: k != key ==> Get(r, k) == Get(d, k)
    ensures forall k :: HasKey(r, k) <==> HasKey(d, k) || k == key
    decreases |d|
  {
    if |d| == 0 then
      ConsLookup((key, value), [], key);
      [(key, value)]
    else
      assert d == [d[0]] + d[1..];
      ConsLookups(d[0], d[1..]);
      if d[0].0 == key then
        ConsLookups((key, value), d[1..]);
        [(key, value)] + d[1..]
      else
        var rest := Set(d[1..], key, value);
        ConsLookups(d[0], rest);
        [d[0]] + rest
  }

  /** Looking up a key in a table with one more entry in front. */
  lemma ConsLookup(x: (string, Json), rest: Table, k: string)
    ensures Get([x] + rest, k) == (if x.0 == k then Some(x.1) else Get(rest, k))
    ensures HasKey([x] + rest, k) <==> x.0 == k || HasKey(rest, k)
  {
    var d := [x] + rest;
    assert d[1..] == rest;
    if HasKey(d, k) && x.0 != k {
      var i :| 0 <= i < |d| && d[i].0 == k;
      assert rest[i - 1].0 == k;
    }
    if HasKey(rest, k) {
      var i :| 0 <= i < |rest| && rest[i].0 == k;
      assert d[i + 1].0 == k;
    }
  }

  lemma ConsLookups(x: (string, Json), rest: Table)
    ensures forall k :: Get([x] + rest, k) == (if x.0 == k then Some(x.1) else Get(rest, k))
    ensures forall k :: HasKey([x] + rest, k) <==> x.0 == k || HasKey(rest, k)
  {
    forall k ensures Get([x] + rest, k) == (if x.0 == k then Some(x.1) else Get(rest, k))
      && (HasKey([x] + rest, k) <==> x.0 == k || HasKey(rest, k))
    {
      ConsLookup(x, rest, k);
    }
  }

  /** `d.update(override)`: each override entry in turn, so later entries win. */
  function Update(d: Table, override: Table): (r: Table)
    decreases |override|
  {
    if |override| == 0 then d
    else
      var last := override[|override| - 1];
      Set(Update(d, override[..|override| - 1]), last.0, last.1)
  }

  /** After an update, a key holds the override's last value for it, or else its old value. */
  lemma {:induction false} UpdateGet(d: Table, override: Table, k: string)
    requires DistinctKeys(override)
    ensures HasKey(override, k) ==> Get(Update(d, override), k) == Get(override, k)
    ensures !HasKey(override, k) ==> Get(Update(d, override), k) == Get(d, k)
    decreases |override|
  {
    if |override| > 0 {
      var init := override[..|override| - 1];
      var last := override[|override| - 1];
      assert DistinctKeys(init);
      UpdateGet(d, init, k);
      if k == last.0 {
        GetAt(override, |override| - 1);
      } else {
        HasKeyInit(override, k);
        if HasKey(init, k) {
          var i :| 0 <= i < |init| && init[i].0 == k;
          GetAt(init, i);
          assert override[i] == init[i];
          GetAt(override, i);
        }
      }
    }
  }

  /** A key other than the last one's is in a table exactly when it is in all but the last entry. */
  lemma HasKeyInit(d: Table, k: string)
    requires |d| > 0 && k != d[|d| - 1].0
    ensures HasKey(d, k) <==> HasKey(d[..|d| - 1], k)
  {
    if HasKey(d, k) {
      var i :| 0 <= i < |d| && d[i].0 == k;
      assert d[..|d| - 1][i].0 == k;
    }
    if HasKey(d[..|d| - 1], k) {
      var i :| 0 <= i < |d| - 1 && d[..|d| - 1][i].0 == k;
      assert d[i].0 == k;
    }
  }

  /** `v.get(key, default)` on any value: only a table has `.get`. */
  function ValueGet(v: Json, key: string, default: Json): (r: Option<Json>)
    ensures r.None? <==> !v.JDict?
    ensures v.JDict? ==> r == Some(GetOr(v.entries, key, default))
  {
    if v.JDict? then Some(GetOr(v.entries, key, default)) else None
  }

  /** The section getters that read one top-level key with a default. */
  datatype Section =
    | EtfList | BacktestParams | FactorParams | TradingParams | RiskParams
    | MarketParams | EpoParams | CostParams | DefensiveEtfs | Strategies

  function SectionKey(s: Section): string
  {
    match s
    case EtfList => "etf_list"
    case BacktestParams => "backtest_params"
    case FactorParams => "factor_params"
    case TradingParams => "trading_params"
    case RiskParams => "risk_params"
    case MarketParams => "market_params"
    case EpoParams => "epo_params"
    case CostParams => "cost_params"
    case DefensiveEtfs => "defensive_etfs"
    case Strategies => "strategies"
  }

  /** The two list sections default to `[]`, every other section to `{}`. */
  function SectionDefault(s: Section): Json
  {
    if s == EtfList || s == DefensiveEtfs then JList([]) else JDict([])
  }

  /** `get_etf_list`, `get_backtest_params`, … `get_strategies_config`. */
  function GetSection(config: Table, s: Section): (v: Json)
    ensures !HasKey(config, SectionKey(s)) ==>
      v == (if s == EtfList || s == DefensiveEtfs then JList([]) else JDict([]))
    ensures HasKey(config, SectionKey(s)) ==> Get(config, SectionKey(s)) == Some(v)
  {
    GetOr(config, SectionKey(s), SectionDefault(s))
  }

  /** `get_benchmark_symbol`: `'000300.SH'` when the benchmark table or its symbol is missing. */
  function GetBenchmarkSymbol(config: Table): (r: Option<Json>)
    ensures !HasKey(config, "benchmark") ==> r == Some(JStr("000300.SH"))
    ensures (HasKey(config, "benchmark") && Get(config, "benchmark").value.JDict?
             && !HasKey(Get(config, "benchmark").value.entries, "symbol")) ==> r == Some(JStr("000300.SH"))
    ensures (HasKey(config, "benchmark") && Get(config, "benchmark").value.JDict?
             && HasKey(Get(config, "benchmark").value.entries, "symbol")) ==>
      r == Get(Get(config, "benchmark").value.entries, "symbol")
    ensures r.None? <==> HasKey(config, "benchmark") && !Get(config, "benchmark").value.JDict?
  {
    ValueGet(GetOr(config, "benchmark", JDict([])), "symbol", JStr("000300.SH"))
  }

  /** `get_strategy_config`: the named strategy's table, `{}` when absent. */
  function GetStrategyConfig(config: Table, name: string): (r: Option<Json>)
    ensures r.None? <==> !GetSection(config, Strategies).JDict?
    ensures r.Some? && !HasKey(GetSection(config, Strategies).entries, name) ==> r == Some(JDict([]))
    ensures r.Some? && HasKey(GetSection(config, Strategies).entries, name) ==>
      r == Get(GetSection(config, Strategies).entries, name)
  {
    ValueGet(GetSection(config, Strategies), name, JDict([]))
  }

  /** `get_strategy_params`: `{}` when the strategy or its `params` is missing. */
  function GetStrategyParams(config: Table, name: string): (r: Option<Json>)
    ensures GetStrategyConfig(config, name) == Some(JDict([])) ==> r == Some(JDict([]))
    ensures r.Some? <==> GetStrategyConfig(config, name).Some? && GetStrategyConfig(config, name).value.JDict?
    ensures r.Some? ==> r == Some(GetOr(GetStrategyConfig(config, name).value.entries, "params", JDict([])))
  {
    match GetStrategyConfig(config, name)
    case None => None
    case Some(strategy) => ValueGet(strategy, "params", JDict([]))
  }

  /** `is_strategy_enabled`: the raw `enabled` value, `False` when the strategy or the flag is missing. */
  function IsStrategyEnabled(config: Table, name: string): (r: Option<Json>)
    ensures GetStrategyConfig(config, name) == Some(JDict([])) ==> r == Some(JBool(false))
    ensures r.Some? <==> GetStrategyConfig(config, name).Some? && GetStrategyConfig(config, name).value.JDict?
    ensures r.Some? ==> r == Some(GetOr(GetStrategyConfig(config, name).value.entries, "enabled", JBool(false)))
  {
    match GetStrategyConfig(config, name)
    case None => None
    case Some(strategy) => ValueGet(strategy, "enabled", JBool(false))
  }

  /** A strategy entry passes the filter of `get_enabled_strategies`. */
  predicate EnabledEntry(info: Json)
  {
    info.JDict? && Truthy(GetOr(info.entries, "enabled", JBool(false)))
  }

  /** The entries of a strategies table that pass the filter, in table order; `None` if any is not a table. */
  function EnabledEntries(strategies: Table): (r: Option<Table>)
    ensures r.None? <==> exists i :: 0 <= i < |strategies| && !strategies[i].1.JDict?
    ensures r.Some? ==> forall x :: x in r.value <==> x in strategies && EnabledEntry(x.1)
    decreases |strategies|
  {
    if |strategies| == 0 then Some([])
    else
      var init := strategies[..|strategies| - 1];
      var last := strategies[|strategies| - 1];
      match EnabledEntries(init)
      case None =>
        assert exists i :: 0 <= i < |strategies| && !strategies[i].1.JDict? by {
          var i :| 0 <= i < |init| && !init[i].1.JDict?;
          assert strategies[i] == init[i];
        }
        None
      case Some(kept) =>
        if !last.1.JDict? then None
        else
          assert forall x :: x in strategies <==> x in init || x == last;
          Some(kept + (if EnabledEntry(last.1) then [last] else []))
  }

  /** `get_enabled_strategies`. */
  function GetEnabledStrategies(config: Table): (r: Option<Table>)
    ensures !GetSection(config, Strategies).JDict? ==> r.None?
  {
    var strategies := GetSection(config, Strategies);
    if strategies.JDict? then EnabledEntries(strategies.entries) else None
  }

  /**
   * A strategy is listed by `get_enabled_strategies` exactly when
   * `is_strategy_enabled` returns a true value for it.
   */
  lemma EnabledAgrees(config: Table, name: string)
    requires GetSection(config, Strategies).JDict? && DistinctKeys(GetSection(config, Strategies).entries)
    requires GetEnabledStrategies(config).Some?
    ensures HasKey(GetEnabledStrategies(config).value, name) <==>
      IsStrategyEnabled(config, name).Some? && Truthy(IsStrategyEnabled(config, name).value)
  {
    var strategies := GetSection(config, Strategies).entries;
    var enabled := GetEnabledStrategies(config).value;
    if HasKey(enabled, name) {
      var i :| 0 <= i < |enabled| && enabled[i].0 == name;
      assert enabled[i] in enabled;
      var j :| 0 <= j < |strategies| && strategies[j] == enabled[i];
      GetAt(strategies, j);
    }
    if HasKey(strategies, name) {
      var j :| 0 <= j < |strategies| && strategies[j].0 == name;
      GetAt(strategies, j);
      if EnabledEntry(strategies[j].1) {
        assert strategies[j] in enabled;
        var i :| 0 <= i < |enabled| && enabled[i] == strategies[j];
      }
    }
  }
}
