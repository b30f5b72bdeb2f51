/**
 * The synthetic PREDICTIVE_BRIDGE table (`generate_predictive_bridge`): for
 * each month, region and scenario, the first snapshot row of that month,
 * region and the scenario's strategy is projected through the scenario's
 * deltas. Combinations without such a row are skipped; the rest are
 * numbered consecutively. Random draws are inputs: `draw(k)` is what the
 * generator yields for the `k`-th emitted row.
 */
module PredictiveBridge {
  import opened Results
  import opened Seqs
  import Snapshot
  import ScenarioControl

  type Row = Snapshot.Row
  type Date = Snapshot.Date
  type Scenario = ScenarioControl.Scenario

  /** The random values one emitted row consumes: the noise, the batch-size factor and the model pick. */
  datatype BridgeDraw = BridgeDraw(noise: real, batchFactor: real, modelPick: real)

  /** One iteration of the triple loop: a month, a region and a scenario row. */
  datatype Combo = Combo(month: Date, region: string, scenario: Scenario)

  /** The PREDICTIVE_BRIDGE columns, before rounding. */
  datatype BridgeRow = BridgeRow(
    bridgeId: int, month: Date, region: string, scenarioId: int,
    predictedFcf: real, predictedRoce: real, predictedSafety: real, predictedPipeline: real,
    leadTimeImpactFcf: real, forecastErrorImpactSafety: real, batchSizeImpactCycle: real,
    fcfLower: real, fcfUpper: real, roceLower: real, roceUpper: real,
    modelSource: string)

  /** `Series.unique()`: the distinct values in order of first appearance. */
  function Unique<T(==)>(s: seq<T>): (u: seq<T>)
    ensures Elems(u) == Elems(s)
    ensures NoDup(u)
    ensures forall i, j :: 0 <= i < j < |u| ==> u[i] in s && u[j] in s && IndexOf(s, u[i]) < IndexOf(s, u[j])
    decreases |s|
  {
    if |s| == 0 then []
    else
      var prefix := s[..|s| - 1];
      var init := Unique(prefix);
      var x := s[|s| - 1];
      assert s == prefix + [x];
      assert Elems(s) == Elems(prefix) + {x};
      assert forall i :: 0 <= i < |init| ==> init[i] in prefix && IndexOf(s, init[i]) == IndexOf(prefix, init[i]) by {
        forall i | 0 <= i < |init| ensures init[i] in prefix && IndexOf(s, init[i]) == IndexOf(prefix, init[i]) {
          assert init[i] in Elems(init);
          IndexOfPrefix(s, |s| - 1, init[i]);
        }
      }
      if x in init then init
      else
        assert Elems(init + [x]) == Elems(init) + {x};
        assert x !in prefix;
        IndexOfLast(s, x);
        init + [x]
  }

  function Months(perf: seq<Row>): seq<Date>
  {
    Unique(seq(|perf|, i requires 0 <= i < |perf| => perf[i].date))
  }

  function RegionList(perf: seq<Row>): seq<string>
  {
    Unique(seq(|perf|, i requires 0 <= i < |perf| => perf[i].region))
  }

  /** The iterations of the inner two loops for one month. */
  function RegionCombos(month: Date, regions: seq<string>, scenarios: seq<Scenario>): (cs: seq<Combo>)
    ensures |cs| == |regions| * |scenarios|
    decreases |regions|
  {
    if |regions| == 0 then []
    else
      seq(|scenarios|, i requires 0 <= i < |scenarios| => Combo(month, regions[0], scenarios[i]))
      + RegionCombos(month, regions[1..], scenarios)
  }

  /** The iterations of the triple loop, in loop order. */
  function Combos(months: seq<Date>, regions: seq<string>, scenarios: seq<Scenario>): (cs: seq<Combo>)
    ensures |cs| == |months| * |regions| * |scenarios|
    decreases |months|
  {
    if |months| == 0 then []
    else RegionCombos(months[0], regions, scenarios) + Combos(months[1..], regions, scenarios)
  }

  lemma {:induction false} RegionCombosMembers(month: Date, regions: seq<string>, scenarios: seq<Scenario>, c: Combo)
    ensures c in RegionCombos(month, regions, scenarios) <==>
              c.month == month && c.region in regions && c.scenario in scenarios
    decreases |regions|
  {
    if |regions| > 0 {
      RegionCombosMembers(month, regions[1..], scenarios, c);
      var head := seq(|scenarios|, i requires 0 <= i < |scenarios| => Combo(month, regions[0], scenarios[i]));
      if c.month == month && c.region == regions[0] && c.scenario in scenarios {
        var i :| 0 <= i < |scenarios| && scenarios[i] == c.scenario;
        assert head[i] == c;
      }
      assert regions == [regions[0]] + regions[1..];
    }
  }

  /** The loop visits every (month, region, scenario) combination of its three lists and nothing else. */
  lemma {:induction false} CombosMembers(months: seq<Date>, regions: seq<string>, scenarios: seq<Scenario>, c: Combo)
    ensures c in Combos(months, regions, scenarios) <==>
              c.month in months && c.region in regions && c.scenario in scenarios
    decreases |months|
  {
    if |months| > 0 {
      CombosMembers(months[1..], regions, scenarios, c);
      RegionCombosMembers(months[0], regions, scenarios, c);
      assert months == [months[0]] + months[1..];
    }
  }

  /** A snapshot row is a base for the combination: same month, region and the scenario's strategy. */
  predicate Matches(r: Row, c: Combo)
  {
    r.date == c.month && r.region == c.region && r.mode == c.scenario.strategy
  }

  /** `base_perf.iloc[0]`: the first matching snapshot row, if any. */
  function BaseRow(perf: seq<Row>, c: Combo): Option<Row>
    decreases |perf|
  {
    if |perf| == 0 then None
    else if Matches(perf[0], c) then Some(perf[0])
    else BaseRow(perf[1..], c)
  }

  /**
   * The base row is the first snapshot row that matches: there is none
   * exactly when no row matches, and otherwise it is the row at the first
   * matching position.
   */
  lemma {:induction false} BaseRowIsFirstMatch(perf: seq<Row>, c: Combo)
    ensures BaseRow(perf, c).None? <==> forall i :: 0 <= i < |perf| ==> !Matches(perf[i], c)
    ensures BaseRow(perf, c).Some? ==>
              exists i :: 0 <= i < |perf| && BaseRow(perf, c).value == perf[i] && Matches(perf[i], c)
                          && forall j :: 0 <= j < i ==> !Matches(perf[j], c)
    decreases |perf|
  {
    if |perf| > 0 && !Matches(perf[0], c) {
      BaseRowIsFirstMatch(perf[1..], c);
      assert forall i :: 1 <= i < |perf| ==> perf[i] == perf[1..][i - 1];
      if BaseRow(perf, c).Some? {
        var i :| 0 <= i < |perf[1..]| && BaseRow(perf[1..], c).value == perf[1..][i] && Matches(perf[1..][i], c)
                 && forall j :: 0 <= j < i ==> !Matches(perf[1..][j], c);
        assert forall j :: 0 <= j < i + 1 ==> !Matches(perf[j], c) by {
          forall j | 0 <= j < i + 1 ensures !Matches(perf[j], c) {
            if j > 0 { assert perf[j] == perf[1..][j - 1]; }
          }
        }
      }
    } else if |perf| > 0 {
      assert BaseRow(perf, c).value == perf[0];
    }
  }

  predicate HasBase(perf: seq<Row>, c: Combo)
  {
    BaseRow(perf, c).Some?
  }

  /** The scenario's FCF delta applied to the base FCF, before noise. */
  function PlannedFcf(base: Row, s: Scenario): real
  {
    base.freeCashFlow * (1.0 + s.fcfDelta as real / 100.0)
  }

  /** The scenario's ROCE delta (in points) added to the base ROCE, before noise. */
  function PlannedRoce(base: Row, s: Scenario): real
  {
    base.rocePct + s.roceDelta as real
  }

  /** The row emitted for a combination with base row `base`. */
  function BridgeRowFor(id: int, c: Combo, base: Row, x: BridgeDraw): (r: BridgeRow)
    ensures r.bridgeId == id && r.month == c.month && r.region == c.region && r.scenarioId == c.scenario.id
    ensures r.fcfLower == 0.85 * PlannedFcf(base, c.scenario) && r.fcfUpper == 1.15 * PlannedFcf(base, c.scenario)
    ensures r.roceLower == 0.9 * PlannedRoce(base, c.scenario) && r.roceUpper == 1.1 * PlannedRoce(base, c.scenario)
    ensures r.modelSource == "XGBOOST" <==> x.modelPick > 0.3
  {
    var s := c.scenario;
    var fcf := PlannedFcf(base, s);
    var roce := PlannedRoce(base, s);
    var safety := base.safetyStock * (1.0 + s.safetyDelta as real / 100.0);
    var pipeline := base.pipelineStock * (1.0 + s.pipelineDelta as real / 100.0);
    BridgeRow(id, c.month, c.region, s.id,
              fcf * (1.0 + x.noise), roce * (1.0 + x.noise * 0.5),
              safety * (1.0 + x.noise), pipeline * (1.0 + x.noise),
              -(s.leadTimeDelta as real) * 50000.0, base.forecastMapePct * 20000.0,
              base.cycleStock * 0.1 * x.batchFactor,
              fcf * 0.85, fcf * 1.15, roce * 0.9, roce * 1.1,
              if x.modelPick > 0.3 then "XGBOOST" else "PROPHET")
  }

  /** The combinations that have a base row, in loop order. */
  function Kept(perf: seq<Row>, combos: seq<Combo>): (kept: seq<Combo>)
    ensures |kept| <= |combos|
    ensures forall i :: 0 <= i < |kept| ==> HasBase(perf, kept[i])
    decreases |combos|
  {
    if |combos| == 0 then []
    else
      var rest := Kept(perf, combos[1..]);
      (if HasBase(perf, combos[0]) then [combos[0]] else []) + rest
  }

  /** A combination is kept exactly when the loop visits it and it has a base row. */
  lemma {:induction false} KeptMembers(perf: seq<Row>, combos: seq<Combo>, c: Combo)
    ensures c in Kept(perf, combos) <==> c in combos && HasBase(perf, c)
    decreases |combos|
  {
    if |combos| > 0 {
      KeptMembers(perf, combos[1..], c);
      assert combos == [combos[0]] + combos[1..];
    }
  }

  /**
   * The loop body over the remaining combinations, with the next BRIDGE_ID
   * and the number of rows emitted so far (which indexes the draws).
   */
  function Bridge(combos: seq<Combo>, perf: seq<Row>, draw: nat -> BridgeDraw, nextId: int, emitted: nat)
    : (rows: seq<BridgeRow>)
    ensures |rows| == |Kept(perf, combos)|
    ensures forall k :: 0 <= k < |rows| ==> rows[k].bridgeId == nextId + k
    decreases |combos|
  {
    if |combos| == 0 then []
    else
      var c := combos[0];
      var rest := Bridge(combos[1..], perf, draw, if HasBase(perf, c) then nextId + 1 else nextId,
                         if HasBase(perf, c) then emitted + 1 else emitted);
      if HasBase(perf, c) then [BridgeRowFor(nextId, c, BaseRow(perf, c).value, draw(emitted))] + rest
      else rest
  }

  /**
   * `generate_predictive_bridge(perf_df, scenario_df)`: one row per
   * month, region and scenario that has a base row, in loop order, the
   * `k`-th projected from its first base row with the `k`-th draw, and
   * BRIDGE_ID running 1..n.
   */
  function GeneratePredictiveBridge(perf: seq<Row>, scenarios: seq<Scenario>, draw: nat -> BridgeDraw)
    : (rows: seq<BridgeRow>)
    ensures forall k :: 0 <= k < |rows| ==> rows[k].bridgeId == k + 1
    ensures var kept := Kept(perf, Combos(Months(perf), RegionList(perf), scenarios));
            && |rows| == |kept|
            && forall k :: 0 <= k < |rows| ==>
                 rows[k] == BridgeRowFor(k + 1, kept[k], BaseRow(perf, kept[k]).value, draw(k))
  {
    var combos := Combos(Months(perf), RegionList(perf), scenarios);
    var rows := Bridge(combos, perf, draw, 1, 0);
    assert forall k :: 0 <= k < |rows| ==>
             rows[k] == BridgeRowFor(k + 1, Kept(perf, combos)[k], BaseRow(perf, Kept(perf, combos)[k]).value, draw(k)) by {
      forall k | 0 <= k < |rows|
        ensures rows[k] == BridgeRowFor(k + 1, Kept(perf, combos)[k], BaseRow(perf, Kept(perf, combos)[k]).value, draw(k))
      {
        BridgeFollowsKeptCombos(combos, perf, draw, 1, 0, k);
      }
    }
    rows
  }

  /**
   * Row `k` of the bridge is the `k`-th combination that has a base row,
   * projected from that base row with the `k`-th draw: combinations without
   * a base row are skipped and no other row is added.
   */
  lemma {:induction false} BridgeFollowsKeptCombos(combos: seq<Combo>, perf: seq<Row>, draw: nat -> BridgeDraw,
                                                   nextId: int, emitted: nat, k: int)
    requires 0 <= k < |Kept(perf, combos)|
    ensures var kept := Kept(perf, combos);
            var rows := Bridge(combos, perf, draw, nextId, emitted);
            && HasBase(perf, kept[k])
            && rows[k] == BridgeRowFor(nextId + k, kept[k], BaseRow(perf, kept[k]).value, draw(emitted + k))
    decreases |combos|
  {
    var c := combos[0];
    BridgeStep(combos, perf, draw, nextId, emitted);
    if HasBase(perf, c) {
      if k > 0 {
        BridgeFollowsKeptCombos(combos[1..], perf, draw, nextId + 1, emitted + 1, k - 1);
      }
    } else {
      BridgeFollowsKeptCombos(combos[1..], perf, draw, nextId, emitted, k);
    }
  }

  /** One step of the loop: the first combination contributes its row when it has a base row, and nothing otherwise. */
  lemma BridgeStep(combos: seq<Combo>, perf: seq<Row>, draw: nat -> BridgeDraw, nextId: int, emitted: nat)
    requires |combos| > 0
    ensures var c := combos[0];
            HasBase(perf, c) ==>
              && Kept(perf, combos) == [c] + Kept(perf, combos[1..])
              && Bridge(combos, perf, draw, nextId, emitted)
                 == [BridgeRowFor(nextId, c, BaseRow(perf, c).value, draw(emitted))]
                    + Bridge(combos[1..], perf, draw, nextId + 1, emitted + 1)
    ensures var c := combos[0];
            !HasBase(perf, c) ==>
              && Kept(perf, combos) == Kept(perf, combos[1..])
              && Bridge(combos, perf, draw, nextId, emitted) == Bridge(combos[1..], perf, draw, nextId, emitted)
  {
  }

  /**
   * The FCF interval brackets the predicted FCF when the planned value is
   * not negative and the noise is at most 15%; the ROCE interval brackets
   * the predicted ROCE when the planned ROCE is not negative and the noise
   * is at most 20% (ROCE takes half the noise).
   */
  lemma BoundsBracketPrediction(id: int, c: Combo, base: Row, x: BridgeDraw)
    ensures var r := BridgeRowFor(id, c, base, x);
            && (PlannedFcf(base, c.scenario) >= 0.0 && -0.15 <= x.noise <= 0.15 ==>
                  r.fcfLower <= r.predictedFcf <= r.fcfUpper)
            && (PlannedRoce(base, c.scenario) >= 0.0 && -0.2 <= x.noise <= 0.2 ==>
                  r.roceLower <= r.predictedRoce <= r.roceUpper)
            && (PlannedFcf(base, c.scenario) < 0.0 ==> r.fcfLower > r.fcfUpper)
  {
    var r := BridgeRowFor(id, c, base, x);
    var f := PlannedFcf(base, c.scenario);
    var g := PlannedRoce(base, c.scenario);
    assert r.predictedFcf == f * (1.0 + x.noise) && r.predictedRoce == g * (1.0 + x.noise * 0.5);
    if f >= 0.0 && -0.15 <= x.noise <= 0.15 {
      assert f * 0.85 <= f * (1.0 + x.noise) <= f * 1.15 by {
        MulMonotone(f, 0.85, 1.0 + x.noise);
        MulMonotone(f, 1.0 + x.noise, 1.15);
      }
    }
    if g >= 0.0 && -0.2 <= x.noise <= 0.2 {
      assert g * 0.9 <= g * (1.0 + x.noise * 0.5) <= g * 1.1 by {
        MulMonotone(g, 0.9, 1.0 + x.noise * 0.5);
        MulMonotone(g, 1.0 + x.noise * 0.5, 1.1);
      }
    }
    if f < 0.0 {
      assert 0.85 * f > 1.15 * f;
    }
  }

  lemma MulMonotone(f: real, a: real, b: real)
    requires f >= 0.0 && a <= b
    ensures f * a <= f * b
  {
  }

  /**
   * A shocked scenario predicts less FCF than the baseline it was copied
   * from, for any base row with a positive FCF: every shock of the scenario
   * table lowers the FCF delta.
   */
  lemma ShocksLowerPlannedFcf(base: Row, b: Scenario, shock: string, id: int)
    requires shock in ScenarioControl.Shocks && base.freeCashFlow > 0.0
    ensures PlannedFcf(base, ScenarioControl.ApplyShock(b, shock, id)) < PlannedFcf(base, b)
  {
    var s := ScenarioControl.ApplyShock(b, shock, id);
    ScenarioControl.ApplyShockDeltas(b, shock, id);
    assert s.fcfDelta < b.fcfDelta;
    ScaleIncreasing(base.freeCashFlow, s.fcfDelta, b.fcfDelta);
  }

  /** A positive amount grown by a larger percentage ends larger. */
  lemma ScaleIncreasing(v: real, a: int, b: int)
    requires v > 0.0 && a < b
    ensures v * (1.0 + a as real / 100.0) < v * (1.0 + b as real / 100.0)
  {
    var x, y := 1.0 + a as real / 100.0, 1.0 + b as real / 100.0;
    assert v * y - v * x == v * (y - x);
  }
}
