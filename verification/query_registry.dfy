/**
 * The named-query registry: a module-global map from query name to its SQL
 * and description, filled by `register_query` calls when the module is
 * imported, and read through a copying accessor.
 */
module QueryRegistry {
  import Seqs

  /** What the registry stores under a name. */
  datatype Entry = Entry(sql: string, description: string)

  type Registry = map<string, Entry>

  /** The arguments of one `register_query` call. */
  datatype Registration = Registration(name: string, sql: string, description: string)

  /**
   * `register_query(name, sql, description="")`: stores (sql, description)
   * under `name`, replacing any earlier entry, and hands `sql` back.
   */
  function RegisterQuery(reg: Registry, name: string, sql: string, description: string := "")
    : (out: (Registry, string))
    ensures out.1 == sql
    ensures out.0.Keys == reg.Keys + {name}
    ensures out.0[name] == Entry(sql, description)
    ensures forall n :: n in reg && n != name ==> out.0[n] == reg[n]
  {
    (reg[name := Entry(sql, description)], sql)
  }

  /** The description is optional and defaults to the empty string. */
  lemma DescriptionDefaultsToEmpty(reg: Registry, name: string, sql: string)
    ensures RegisterQuery(reg, name, sql).0[name].description == ""
    ensures RegisterQuery(reg, name, sql) == RegisterQuery(reg, name, sql, "")
  {
  }

  /**
   * `get_all_queries()`: a shallow copy. Maps are values here, so whatever a
   * caller does with the copy cannot reach the registry.
   */
  function GetAllQueries(reg: Registry): (copy: Registry)
    ensures copy.Keys == reg.Keys
    ensures forall n :: n in copy ==> copy[n] == reg[n]
  {
    reg
  }

  /**
   * A run of `register_query` calls from registry `reg`: the final registry
   * and the value each call returned, in call order.
   */
  function RunRegistrations(reg: Registry, calls: seq<Registration>): (out: (Registry, seq<string>))
    ensures |out.1| == |calls|
    decreases |calls|
  {
    if |calls| == 0 then (reg, [])
    else
      var prev := RunRegistrations(reg, calls[..|calls| - 1]);
      var c := calls[|calls| - 1];
      var step := RegisterQuery(prev.0, c.name, c.sql, c.description);
      (step.0, prev.1 + [step.1])
  }

  /** Call `i` is the last one to use its name. */
  ghost predicate LastFor(calls: seq<Registration>, i: int)
  {
    0 <= i < |calls| && forall j :: i < j < |calls| ==> calls[j].name != calls[i].name
  }

  /** Some call uses name `n`. */
  ghost predicate Registered(calls: seq<Registration>, n: string)
  {
    exists i :: 0 <= i < |calls| && calls[i].name == n
  }

  /** After a run of calls the registry holds the earlier names plus every registered one. */
  lemma {:induction false} RegistrationsKeys(reg: Registry, calls: seq<Registration>)
    ensures forall n :: n in RunRegistrations(reg, calls).0 <==> n in reg || Registered(calls, n)
    decreases |calls|
  {
    if |calls| > 0 {
      var init := calls[..|calls| - 1];
      var c := calls[|calls| - 1];
      RegistrationsKeys(reg, init);
      var r := RunRegistrations(reg, calls).0;
      assert r.Keys == RunRegistrations(reg, init).0.Keys + {c.name};
      forall n
        ensures n in r <==> n in reg || Registered(calls, n)
      {
        if Registered(calls, n) && n != c.name {
          var i :| 0 <= i < |calls| && calls[i].name == n;
          assert init[i].name == n;
        }
        if Registered(init, n) {
          var i :| 0 <= i < |init| && init[i].name == n;
          assert calls[i].name == n;
        }
      }
    }
  }

  /** Last write wins: a registered name maps to the (sql, description) of the last call that used it. */
  lemma {:induction false} RegistrationsLastWriteWins(reg: Registry, calls: seq<Registration>)
    ensures forall i :: LastFor(calls, i) ==>
              && calls[i].name in RunRegistrations(reg, calls).0
              && RunRegistrations(reg, calls).0[calls[i].name] == Entry(calls[i].sql, calls[i].description)
    decreases |calls|
  {
    if |calls| > 0 {
      var init := calls[..|calls| - 1];
      var c := calls[|calls| - 1];
      RegistrationsLastWriteWins(reg, init);
      var prev := RunRegistrations(reg, init).0;
      var r := RunRegistrations(reg, calls).0;
      assert r == prev[c.name := Entry(c.sql, c.description)];
      forall i | LastFor(calls, i)
        ensures calls[i].name in r && r[calls[i].name] == Entry(calls[i].sql, calls[i].description)
      {
        if i < |calls| - 1 {
          assert calls[i] == init[i];
          assert LastFor(init, i);
        }
      }
    }
  }

  /** A name no call uses keeps the entry it had before the run. */
  lemma {:induction false} RegistrationsKeepOthers(reg: Registry, calls: seq<Registration>)
    ensures forall n :: n in reg && !Registered(calls, n) ==>
              n in RunRegistrations(reg, calls).0 && RunRegistrations(reg, calls).0[n] == reg[n]
    decreases |calls|
  {
    if |calls| > 0 {
      var init := calls[..|calls| - 1];
      var c := calls[|calls| - 1];
      RegistrationsKeepOthers(reg, init);
      var prev := RunRegistrations(reg, init).0;
      var r := RunRegistrations(reg, calls).0;
      assert r == prev[c.name := Entry(c.sql, c.description)];
      forall n | n in reg && !Registered(calls, n)
        ensures n in r && r[n] == reg[n]
      {
        assert !Registered(init, n) by {
          forall i | 0 <= i < |init|
            ensures init[i].name != n
          {
            assert init[i] == calls[i];
          }
        }
        assert calls[|calls| - 1].name != n;
      }
    }
  }

  /** Each call of a run hands back exactly the SQL it was given. */
  lemma {:induction false} RunReturnsEachSql(reg: Registry, calls: seq<Registration>)
    ensures forall i :: 0 <= i < |calls| ==> RunRegistrations(reg, calls).1[i] == calls[i].sql
    decreases |calls|
  {
    if |calls| > 0 {
      RunReturnsEachSql(reg, calls[..|calls| - 1]);
    }
  }

  /** The registrations the module makes on import, in source order (the SQL text is a parameter). */
  const Names: seq<string> := [
    "performance_snapshot", "latest_metrics", "inventory_breakdown", "triangle_metrics",
    "scenario_control", "financial_bridge", "causal_traces", "predictions", "pipeline_vs_roce"]

  const Descriptions: seq<string> := [
    "Full performance snapshot data", "Latest 3-month performance metrics",
    "Monthly inventory decomposition", "Triangle trade-off metrics by strategy",
    "Scenario control parameters", "Financial bridge waterfall data",
    "Causal trace relationship definitions", "ML predictions with scenario context",
    "Pipeline stock vs ROCE trend (Golden Query)"]

  /**
   * Module initialisation: nine `register_query` calls on the empty
   * registry. The result's second part is the exported constants
   * PERFORMANCE_SNAPSHOT_SQL .. PIPELINE_VS_ROCE_SQL in source order.
   */
  function InitialRegistry(sqls: seq<string>): (out: (Registry, seq<string>))
    requires |sqls| == |Names|
  {
    RunRegistrations(map[], InitialCalls(sqls))
  }

  /** The registrations of module initialisation, one per name. */
  function InitialCalls(sqls: seq<string>): (calls: seq<Registration>)
    requires |sqls| == |Names|
    ensures |calls| == |Names|
    ensures forall i :: 0 <= i < |Names| ==> calls[i] == Registration(Names[i], sqls[i], Descriptions[i])
  {
    seq(|Names|, i requires 0 <= i < |Names| => Registration(Names[i], sqls[i], Descriptions[i]))
  }

  /** After import the registry holds exactly the nine distinct names. */
  lemma InitialRegistryKeys(sqls: seq<string>)
    requires |sqls| == |Names|
    ensures InitialRegistry(sqls).0.Keys == Seqs.Elems(Names)
    ensures |InitialRegistry(sqls).0| == 9
  {
    var calls := InitialCalls(sqls);
    RegistrationsKeys(map[], calls);
    var reg := InitialRegistry(sqls).0;
    forall i | 0 <= i < |Names|
      ensures Registered(calls, Names[i])
    {
      assert calls[i].name == Names[i];
    }
    forall n | n in reg
      ensures n in Names
    {
      var i :| 0 <= i < |calls| && calls[i].name == n;
    }
    NamesDistinct();
    assert reg.Keys == Seqs.Elems(Names);
  }

  /**
   * Each name is stored with its own SQL and description, and every
   * exported constant is the SQL stored under its name.
   */
  lemma InitialRegistryEntries(sqls: seq<string>)
    requires |sqls| == |Names|
    ensures var (reg, exported) := InitialRegistry(sqls);
            && (forall i :: 0 <= i < |Names| ==> Names[i] in reg && reg[Names[i]] == Entry(sqls[i], Descriptions[i]))
            && (forall i :: 0 <= i < |Names| ==> exported[i] == sqls[i] && exported[i] == reg[Names[i]].sql)
  {
    var calls := InitialCalls(sqls);
    NamesDistinct();
    forall i | 0 <= i < |Names|
      ensures LastFor(calls, i)
    {
    }
    RegistrationsLastWriteWins(map[], calls);
    RunReturnsEachSql(map[], calls);
  }

  /** The nine registered names are pairwise distinct: no two share both first letter and length. */
  lemma NamesDistinct()
    ensures Seqs.NoDup(Names)
    ensures |Seqs.Elems(Names)| == 9
  {
    var sigs := seq(|Names|, i requires 0 <= i < |Names| => (Names[i][0], |Names[i]|));
    assert sigs == [('p', 20), ('l', 14), ('i', 19), ('t', 16), ('s', 16), ('f', 16), ('c', 13), ('p', 11), ('p', 16)];
    forall i, j | 0 <= i < j < |Names|
      ensures Names[i] != Names[j]
    {
      assert sigs[i] != sigs[j];
    }
    Seqs.NoDupCardinality(Names);
  }
}
