/**
 * The dashboard's data loaders (`load_dashboard_data`, `load_baseline_data`
 * and the app's `load_all_data`): which queries they submit, how the shock
 * selector becomes a SQL filter, and how missing results are defaulted.
 * Queries are described by what they select rather than by their SQL text;
 * the session is an oracle from query to response.
 */
module DashboardLoader {
  import opened Results
  import opened QueryExecutor
  import opened ScenarioControl
  import Memo

  /** Both loaders are cached for 300 seconds. */
  const CacheTtl := 300

  /** `load_dashboard_data` runs its three queries on a pool of three workers. */
  const DashboardWorkers := 3

  /** The condition on `SCENARIO_CONTROL.SHOCK_EVENT`: `IS NULL`, or `= '<event>'`. */
  datatype ShockFilter = IsNull | Equals(event: string)

  /** The column lists of the performance-snapshot join. */
  datatype Columns = DashboardColumns | BaselineColumns

  /**
   * The queries the loaders send. `Snapshot` is the join of the performance
   * snapshot with the scenario table on strategy and shock filter,
   * restricted to one strategy; `Predictions` is the predictive bridge joined
   * on scenario id; `CausalTraces` reads the whole trace view.
   */
  datatype DashboardQuery =
    | Snapshot(columns: Columns, strategy: string, filter: ShockFilter)
    | Predictions(strategy: string, filter: ShockFilter)
    | CausalTraces

  /** The shock selector's value "None" means no shock; any other value names one. */
  function ShockFilterFor(shockEvent: string): (f: ShockFilter)
    ensures f.IsNull? <==> shockEvent == "None"
    ensures f.Equals? ==> f.event == shockEvent
  {
    if shockEvent == "None" then IsNull else Equals(shockEvent)
  }

  /** The filter as it is spliced into the SQL text. */
  function RenderFilter(f: ShockFilter): string
  {
    match f
    case IsNull => "IS NULL"
    case Equals(e) => "= '" + e + "'"
  }

  /**
   * The filter text is "IS NULL" exactly when the selector says "None";
   * otherwise it is the equality test against the selected event.
   */
  lemma ShockFilterText(shockEvent: string)
    ensures RenderFilter(ShockFilterFor(shockEvent)) == "IS NULL" <==> shockEvent == "None"
    ensures shockEvent != "None" ==> RenderFilter(ShockFilterFor(shockEvent)) == "= '" + shockEvent + "'"
  {
    if shockEvent != "None" {
      var text := RenderFilter(ShockFilterFor(shockEvent));
      assert text[0] == '=';
      assert "IS NULL"[0] == 'I';
    }
  }

  /**
   * Whether a scenario row with shock `shock` passes the filter under SQL's
   * rules: `IS NULL` keeps exactly the rows without a shock, and `= 'e'`
   * keeps exactly the rows whose shock is `e` (a NULL never compares equal).
   */
  predicate Selects(f: ShockFilter, shock: Option<string>)
  {
    match f
    case IsNull => shock.None?
    case Equals(e) => shock == Some(e)
  }

  /** A scenario row takes part in a join for `strategy` under filter `f`. */
  predicate Joins(row: Scenario, strategy: string, f: ShockFilter)
  {
    row.strategy == strategy && Selects(f, row.shock)
  }

  /** The choices the app's two selectors offer. */
  const UiStrategies: seq<string> := ["GROWTH", "MARGIN", "CASH"]
  const UiShocks: seq<string> := ["None", "SUPPLY_DISRUPTION", "PORT_STRIKE", "DEMAND_SURGE"]

  /**
   * Every pair of selector values joins exactly one row of the generated
   * scenario table: strategy `s`'s block, at offset `e` (the baseline for
   * "None", otherwise the shocked copy). So the dashboard's joins never
   * duplicate or lose performance rows.
   */
  lemma {:induction false} SelectionJoinsOneScenario(s: nat, e: nat)
    requires s < |UiStrategies| && e < |UiShocks|
    ensures var rows := GenerateScenarioControl();
            forall k :: 0 <= k < |rows| ==>
              (Joins(rows[k], UiStrategies[s], ShockFilterFor(UiShocks[e])) <==> k == 4 * s + e)
  {
    var rows := GenerateScenarioControl();
    ScenarioTableLayout();
    var f := ShockFilterFor(UiShocks[e]);
    assert Shocks == UiShocks[1..];
    forall k | 0 <= k < |rows|
      ensures Joins(rows[k], UiStrategies[s], f) <==> k == 4 * s + e
    {
      assert rows[k].strategy == Bases[k / 4].strategy;
      assert Bases[s].strategy == UiStrategies[s];
      if k / 4 == s {
        if k % 4 == 0 {
          assert rows[k].shock.None?;
        } else {
          assert rows[k].shock == Some(UiShocks[k % 4]);
        }
        assert k == 4 * s + k % 4;
      } else {
        assert Bases[k / 4].strategy != UiStrategies[s];
      }
    }
  }

  /** The queries of `load_dashboard_data`, keyed as in its dict. */
  function DashboardQueries(strategy: string, shockEvent: string): (qs: seq<(string, DashboardQuery)>)
    ensures DistinctKeys(qs)
  {
    var f := ShockFilterFor(shockEvent);
    [("performance", Snapshot(DashboardColumns, strategy, f)),
     ("predictions", Predictions(strategy, f)),
     ("causal_traces", CausalTraces)]
  }

  /**
   * `load_dashboard_data(session, strategy, shock)`: the three queries run
   * without fail-fast, so the call never raises and its map holds exactly
   * the queries that produced a table.
   */
  function LoadDashboardData<T>(oracle: DashboardQuery -> Response<T>, strategy: string, shockEvent: string)
    : (r: map<string, T>)
    ensures forall n :: n in r ==> n in {"performance", "predictions", "causal_traces"}
    ensures var q := Snapshot(DashboardColumns, strategy, ShockFilterFor(shockEvent));
            && ("performance" in r <==> oracle(q).Table?)
            && ("performance" in r ==> r["performance"] == oracle(q).table)
    ensures var q := Predictions(strategy, ShockFilterFor(shockEvent));
            && ("predictions" in r <==> oracle(q).Table?)
            && ("predictions" in r ==> r["predictions"] == oracle(q).table)
    ensures && ("causal_traces" in r <==> oracle(CausalTraces).Table?)
            && ("causal_traces" in r ==> r["causal_traces"] == oracle(CausalTraces).table)
  {
    var qs := DashboardQueries(strategy, shockEvent);
    var run := RunQueriesParallel(qs, oracle, DashboardWorkers, false);
    assert qs[0].0 == "performance" && qs[1].0 == "predictions" && qs[2].0 == "causal_traces";
    run.value
  }

  /**
   * `load_dashboard_data` on the executor as written: a query raising an
   * exception with an empty message is not dropped but kept as None, which
   * the app later reads as a data frame.
   */
  function LoadDashboardDataAsWritten<T>(oracle: DashboardQuery -> Response<T>, strategy: string, shockEvent: string)
    : (r: map<string, Option<T>>)
    ensures forall n :: n in r ==> n in {"performance", "predictions", "causal_traces"}
    ensures var q := Snapshot(DashboardColumns, strategy, ShockFilterFor(shockEvent));
            && ("performance" in r <==> !ReportedAsWritten(oracle(q)))
            && ("performance" in r ==> r["performance"] == if oracle(q).Table? then Some(oracle(q).table) else None)
    ensures var q := Predictions(strategy, ShockFilterFor(shockEvent));
            && ("predictions" in r <==> !ReportedAsWritten(oracle(q)))
            && ("predictions" in r ==> r["predictions"] == if oracle(q).Table? then Some(oracle(q).table) else None)
    ensures && ("causal_traces" in r <==> !ReportedAsWritten(oracle(CausalTraces)))
            && ("causal_traces" in r ==>
                  r["causal_traces"] == if oracle(CausalTraces).Table? then Some(oracle(CausalTraces).table) else None)
  {
    var qs := DashboardQueries(strategy, shockEvent);
    var run := RunAsWritten(qs, oracle, DashboardWorkers, false);
    assert qs[0].0 == "performance" && qs[1].0 == "predictions" && qs[2].0 == "causal_traces";
    run.value
  }

  /**
   * The as-written loader and the corrected one differ only on queries that
   * raised an empty message: every table of the corrected loader is there
   * too, and every extra key holds None.
   */
  lemma DashboardLoadersDifferOnlyOnEmptyMessages<T>(oracle: DashboardQuery -> Response<T>, strategy: string,
                                                     shockEvent: string)
    ensures var fixed := LoadDashboardData(oracle, strategy, shockEvent);
            var asWritten := LoadDashboardDataAsWritten(oracle, strategy, shockEvent);
            && (forall n :: n in fixed ==> n in asWritten && asWritten[n] == Some(fixed[n]))
            && (forall n :: n in asWritten && n !in fixed ==> asWritten[n] == None)
  {
  }

  /** The single query of `load_baseline_data`: the snapshot join with no shock. */
  function BaselineQuery(strategy: string): DashboardQuery
  {
    Snapshot(BaselineColumns, strategy, IsNull)
  }

  /**
   * The baseline query is the dashboard's performance query for the
   * unshocked scenario, differing only in the columns it selects.
   */
  lemma BaselineIsUnshockedPerformance(strategy: string, shockEvent: string)
    ensures BaselineQuery(strategy).filter == ShockFilterFor("None")
    ensures DashboardQueries(strategy, "None")[0].1 == BaselineQuery(strategy).(columns := DashboardColumns)
    ensures BaselineQuery(strategy).strategy == DashboardQueries(strategy, shockEvent)[0].1.strategy
  {
  }

  /**
   * `load_baseline_data(session, strategy)`: the session's response is
   * passed straight back, so an exception propagates to the caller and a
   * `None` from the driver is returned as `None`.
   */
  function LoadBaselineData<T>(oracle: DashboardQuery -> Response<T>, strategy: string): (r: Response<T>)
    ensures r == oracle(Snapshot(BaselineColumns, strategy, IsNull))
  {
    oracle(BaselineQuery(strategy))
  }

  /** The four values `load_all_data` returns; `baseline` is Python's `None` when absent. */
  datatype AllData<T> = AllData(performance: T, predictions: T, traces: T, baseline: Option<T>)

  /** `dict.get(key, default)`. */
  function GetOr<T>(m: map<string, T>, key: string, default: T): T
  {
    if key in m then m[key] else default
  }

  /**
   * `load_all_data(session, strategy, shock, load_baseline=False)`. `empty`
   * is the empty data frame substituted for a missing dashboard result. A
   * `Failure` is the baseline query's exception, the only one that escapes.
   */
  function LoadAllData<T>(oracle: DashboardQuery -> Response<T>, strategy: string, shockEvent: string,
                          empty: T, loadBaseline: bool := false)
    : (r: Result<AllData<T>, string>)
    ensures r.Failure? <==> loadBaseline && oracle(BaselineQuery(strategy)).Raised?
    ensures r.Failure? ==> r.error == oracle(BaselineQuery(strategy)).message
    ensures r.Success? ==>
              var q := oracle(Snapshot(DashboardColumns, strategy, ShockFilterFor(shockEvent)));
              r.value.performance == if q.Table? then q.table else empty
    ensures r.Success? ==>
              var q := oracle(Predictions(strategy, ShockFilterFor(shockEvent)));
              r.value.predictions == if q.Table? then q.table else empty
    ensures r.Success? ==>
              r.value.traces == if oracle(CausalTraces).Table? then oracle(CausalTraces).table else empty
    ensures r.Success? ==>
              (r.value.baseline.Some? <==> loadBaseline && oracle(BaselineQuery(strategy)).Table?)
    ensures r.Success? && r.value.baseline.Some? ==> r.value.baseline.value == oracle(BaselineQuery(strategy)).table
  {
    var data := LoadDashboardData(oracle, strategy, shockEvent);
    var df := GetOr(data, "performance", empty);
    var predictions := GetOr(data, "predictions", empty);
    var traces := GetOr(data, "causal_traces", empty);
    if !loadBaseline then
      Success(AllData(df, predictions, traces, None))
    else
      match LoadBaselineData(oracle, strategy)
      case Table(t) => Success(AllData(df, predictions, traces, Some(t)))
      case ReturnedNone => Success(AllData(df, predictions, traces, None))
      case Raised(msg) => Failure(msg)
  }

  /**
   * `load_dashboard_data` behind its cache: the key is (strategy, shock);
   * the session argument is excluded from the key, so the oracle plays no
   * part in it.
   */
  function CachedDashboardData<T>(cache: map<(string, string), Memo.Entry<map<string, T>>>,
                                  oracle: DashboardQuery -> Response<T>, strategy: string, shockEvent: string,
                                  now: int)
    : (m: Memo.Memoised<(string, string), map<string, T>>)
    ensures m.result.Success?
    ensures m.executed ==> m.result.value == LoadDashboardData(oracle, strategy, shockEvent)
    ensures m.executed ==> (strategy, shockEvent) in m.cache
                           && m.cache[(strategy, shockEvent)] == Memo.Entry(m.result.value, now)
    ensures !m.executed ==> (strategy, shockEvent) in cache && m.result.value == cache[(strategy, shockEvent)].value
  {
    Memo.Call(cache, (strategy, shockEvent), now, CacheTtl, Success(LoadDashboardData(oracle, strategy, shockEvent)))
  }

  /**
   * Within 300 seconds of a load, asking again for the same strategy and
   * shock returns the earlier tables, even if the warehouse (the oracle) now
   * answers differently.
   */
  lemma DashboardServedFromCache<T>(cache: map<(string, string), Memo.Entry<map<string, T>>>,
                                    before: DashboardQuery -> Response<T>, after: DashboardQuery -> Response<T>,
                                    strategy: string, shockEvent: string, t1: int, t2: int)
    requires (strategy, shockEvent) !in cache
    requires t1 <= t2 < t1 + CacheTtl
    ensures var m1 := CachedDashboardData(cache, before, strategy, shockEvent, t1);
            var m2 := CachedDashboardData(m1.cache, after, strategy, shockEvent, t2);
            m1.executed && !m2.executed && m2.result == Success(LoadDashboardData(before, strategy, shockEvent))
  {
    Memo.HitWithinTtl(cache, (strategy, shockEvent), t1, t2, CacheTtl,
                      Success(LoadDashboardData(before, strategy, shockEvent)),
                      Success(LoadDashboardData(after, strategy, shockEvent)));
  }

  /** A different shock is a different key: switching the selector always reaches the warehouse. */
  lemma OtherShockIsNotShared<T>(cache: map<(string, string), Memo.Entry<map<string, T>>>,
                                 oracle: DashboardQuery -> Response<T>,
                                 strategy: string, shock1: string, shock2: string, t1: int, t2: int)
    requires (strategy, shock2) !in cache
    requires shock1 != shock2
    ensures var m1 := CachedDashboardData(cache, oracle, strategy, shock1, t1);
            var m2 := CachedDashboardData(m1.cache, oracle, strategy, shock2, t2);
            m2.executed && m2.result == Success(LoadDashboardData(oracle, strategy, shock2))
  {
    Memo.OtherKeysUntouched(cache, (strategy, shock1), t1, CacheTtl,
                            Success(LoadDashboardData(oracle, strategy, shock1)), (strategy, shock2));
  }

  /**
   * `load_baseline_data` behind its own cache, keyed by strategy alone. A
   * `None` from the driver is a value and is cached; an exception is not.
   */
  function CachedBaselineData<T>(cache: map<string, Memo.Entry<Option<T>>>,
                                 oracle: DashboardQuery -> Response<T>, strategy: string, now: int)
    : (m: Memo.Memoised<string, Option<T>>)
    ensures m.executed ==> (m.result.Failure? <==> oracle(BaselineQuery(strategy)).Raised?)
    ensures m.executed && oracle(BaselineQuery(strategy)).Raised? ==>
              m.result == Failure(oracle(BaselineQuery(strategy)).message) && m.cache == cache
    ensures m.executed && oracle(BaselineQuery(strategy)).Table? ==>
              && m.result == Success(Some(oracle(BaselineQuery(strategy)).table))
              && strategy in m.cache && m.cache[strategy] == Memo.Entry(Some(oracle(BaselineQuery(strategy)).table), now)
    ensures m.executed && oracle(BaselineQuery(strategy)).ReturnedNone? ==>
              && m.result == Success(None)
              && strategy in m.cache && m.cache[strategy] == Memo.Entry(None, now)
    ensures !m.executed ==> strategy in cache && m.result == Success(cache[strategy].value) && m.cache == cache
  {
    var compute := match LoadBaselineData(oracle, strategy)
      case Table(t) => Success(Some(t))
      case ReturnedNone => Success(None)
      case Raised(msg) => Failure(msg);
    Memo.Call(cache, strategy, now, CacheTtl, compute)
  }
}
