/**
 * The scenario table of the synthetic-data generator (`generate_scenario_control`):
 * three strategy baselines, each followed by its three shocked variants.
 */
module ScenarioControl {
  import opened Results

  /** One row of SCENARIO_CONTROL. Delta columns are integers in the generator. */
  datatype Scenario = Scenario(
    id: int,
    strategy: string,
    shock: Option<string>,
    serviceWeight: real,
    costWeight: real,
    cashWeight: real,
    otifDelta: int,
    leadTimeDelta: int,
    safetyDelta: int,
    pipelineDelta: int,
    roceDelta: int,
    fcfDelta: int,
    permissibleRed: string,
    mandatoryGreen: string,
    economicBet: string)

  /** The three baselines before they are numbered (their `id` is filled in by the generator). */
  const Bases: seq<Scenario> := [
    Scenario(0, "GROWTH", None, 1.5, 0.8, 0.7, 3, -2, 10, 5, -2, -5,
             "CASH", "SERVICE", "Revenue growth will outpace capital cost"),
    Scenario(0, "MARGIN", None, 0.8, 1.5, 1.0, -2, 3, -5, 0, 2, 3,
             "SERVICE", "COST", "Profitability is more vital than volume"),
    Scenario(0, "CASH", None, 0.7, 0.9, 1.6, -1, 2, -15, -10, 5, 10,
             "SERVICE", "ROCE", "Liquidity is the priority over expansion")
  ]

  /** The shocks applied to every baseline, in the generator's order. */
  const Shocks: seq<string> := ["SUPPLY_DISRUPTION", "PORT_STRIKE", "DEMAND_SURGE"]

  /** A shocked copy of `base`: the shock's deltas are added to the base's own deltas. */
  function ApplyShock(base: Scenario, shock: string, id: int): Scenario
  {
    var s := base.(id := id, shock := Some(shock));
    if shock == "SUPPLY_DISRUPTION" then
      s.(leadTimeDelta := s.leadTimeDelta + 5, safetyDelta := s.safetyDelta + 20,
         pipelineDelta := s.pipelineDelta + 15, otifDelta := s.otifDelta - 5, fcfDelta := s.fcfDelta - 8)
    else if shock == "PORT_STRIKE" then
      s.(leadTimeDelta := s.leadTimeDelta + 10, pipelineDelta := s.pipelineDelta + 30,
         fcfDelta := s.fcfDelta - 12, roceDelta := s.roceDelta - 3)
    else if shock == "DEMAND_SURGE" then
      s.(otifDelta := s.otifDelta - 8, safetyDelta := s.safetyDelta + 25, fcfDelta := s.fcfDelta - 6)
    else s
  }

  /** The rows one baseline contributes: the baseline itself, then one row per shock. */
  function Block(base: Scenario, firstId: int): seq<Scenario>
  {
    [base.(id := firstId)]
    + [ApplyShock(base, Shocks[0], firstId + 1),
       ApplyShock(base, Shocks[1], firstId + 2),
       ApplyShock(base, Shocks[2], firstId + 3)]
  }

  /** The loop over baselines, numbering rows consecutively from `firstId`. */
  function Blocks(bases: seq<Scenario>, firstId: int): seq<Scenario>
    decreases |bases|
  {
    if |bases| == 0 then [] else Block(bases[0], firstId) + Blocks(bases[1..], firstId + 4)
  }

  /** The row the generator's loop emits at position `k`, counting from `firstId`. */
  function RowAt(bases: seq<Scenario>, firstId: int, k: int): Scenario
    requires 0 <= k < 4 * |bases|
  {
    if k % 4 == 0 then bases[k / 4].(id := firstId + k)
    else ApplyShock(bases[k / 4], Shocks[k % 4 - 1], firstId + k)
  }

  lemma {:induction false} BlocksLength(bases: seq<Scenario>, firstId: int)
    ensures |Blocks(bases, firstId)| == 4 * |bases|
    decreases |bases|
  {
    if |bases| > 0 {
      BlocksLength(bases[1..], firstId + 4);
    }
  }

  /** Row `k` of the loop, by induction on the baselines before it. */
  lemma {:induction false} BlocksAt(bases: seq<Scenario>, firstId: int, k: int)
    requires 0 <= k < 4 * |bases|
    ensures |Blocks(bases, firstId)| == 4 * |bases|
    ensures Blocks(bases, firstId)[k] == RowAt(bases, firstId, k)
    decreases |bases|
  {
    BlocksLength(bases, firstId);
    BlocksLength(bases[1..], firstId + 4);
    var all := Blocks(bases, firstId);
    var rest := Blocks(bases[1..], firstId + 4);
    assert all == Block(bases[0], firstId) + rest;
    if k >= 4 {
      DivShift(k);
      BlocksAt(bases[1..], firstId + 4, k - 4);
      assert all[k] == rest[k - 4];
    }
  }

  /** Every row of the loop is the one `RowAt` describes. */
  lemma BlocksLayout(bases: seq<Scenario>, firstId: int)
    ensures |Blocks(bases, firstId)| == 4 * |bases|
    ensures forall k :: 0 <= k < 4 * |bases| ==> Blocks(bases, firstId)[k] == RowAt(bases, firstId, k)
  {
    BlocksLength(bases, firstId);
    forall k | 0 <= k < 4 * |bases|
      ensures Blocks(bases, firstId)[k] == RowAt(bases, firstId, k)
    {
      BlocksAt(bases, firstId, k);
    }
  }

  lemma DivShift(k: int)
    requires k >= 4
    ensures k / 4 == (k - 4) / 4 + 1 && k % 4 == (k - 4) % 4
  {
  }

  /** `generate_scenario_control()`: the loop over the three baselines, numbering rows from 1. */
  function GenerateScenarioControl(): (rows: seq<Scenario>)
    ensures |rows| == 12
    ensures forall k :: 0 <= k < 12 ==> rows[k] == RowAt(Bases, 1, k)
  {
    BlocksLayout(Bases, 1);
    Blocks(Bases, 1)
  }

  /** A shock changes the id, the shock and some deltas, never the strategy. */
  lemma ApplyShockKeepsStrategy(base: Scenario, shock: string, id: int)
    ensures ApplyShock(base, shock, id).strategy == base.strategy
    ensures ApplyShock(base, shock, id).id == id
    ensures ApplyShock(base, shock, id).shock == Some(shock)
  {
  }

  /**
   * Twelve rows numbered 1..12: each baseline with shock None, followed by
   * its three shocked copies in the order SUPPLY_DISRUPTION, PORT_STRIKE,
   * DEMAND_SURGE, all of the baseline's strategy.
   */
  lemma ScenarioTableLayout()
    ensures var rows := GenerateScenarioControl();
            && (forall k :: 0 <= k < 12 ==> rows[k].id == k + 1)
            && (forall k :: 0 <= k < 12 ==> rows[k].strategy == Bases[k / 4].strategy)
            && (forall k :: 0 <= k < 12 ==> (rows[k].shock == None <==> k % 4 == 0))
            && (forall k :: 0 <= k < 12 && k % 4 != 0 ==> rows[k].shock == Some(Shocks[k % 4 - 1]))
  {
    var rows := GenerateScenarioControl();
    forall k | 0 <= k < 12
      ensures rows[k].id == k + 1 && rows[k].strategy == Bases[k / 4].strategy
      ensures rows[k].shock == None <==> k % 4 == 0
      ensures k % 4 != 0 ==> rows[k].shock == Some(Shocks[k % 4 - 1])
    {
      if k % 4 != 0 {
        ApplyShockKeepsStrategy(Bases[k / 4], Shocks[k % 4 - 1], 1 + k);
      }
    }
  }

  /** The columns a shock never touches are those of the baseline it was copied from. */
  ghost predicate SameIdentity(r: Scenario, b: Scenario)
  {
    && r.strategy == b.strategy
    && r.serviceWeight == b.serviceWeight && r.costWeight == b.costWeight && r.cashWeight == b.cashWeight
    && r.permissibleRed == b.permissibleRed && r.mandatoryGreen == b.mandatoryGreen
    && r.economicBet == b.economicBet
  }

  /**
   * Every shocked row is its baseline plus that shock's deltas, never the
   * previous shock's: SUPPLY_DISRUPTION moves lead time +5, safety +20,
   * pipeline +15, OTIF -5, FCF -8 and leaves ROCE; PORT_STRIKE moves lead time
   * +10, pipeline +30, FCF -12, ROCE -3 and leaves safety and OTIF;
   * DEMAND_SURGE moves OTIF -8, safety +25, FCF -6 and leaves lead time,
   * pipeline and ROCE.
   */
  lemma ShockDeltas(k: int)
    requires 0 <= k < 12 && k % 4 != 0
    ensures var r, b := GenerateScenarioControl()[k], Bases[k / 4];
            && SameIdentity(r, b)
            && (r.shock == Some("SUPPLY_DISRUPTION") ==>
                  r.leadTimeDelta == b.leadTimeDelta + 5 && r.safetyDelta == b.safetyDelta + 20
                  && r.pipelineDelta == b.pipelineDelta + 15 && r.otifDelta == b.otifDelta - 5
                  && r.fcfDelta == b.fcfDelta - 8 && r.roceDelta == b.roceDelta)
            && (r.shock == Some("PORT_STRIKE") ==>
                  r.leadTimeDelta == b.leadTimeDelta + 10 && r.pipelineDelta == b.pipelineDelta + 30
                  && r.fcfDelta == b.fcfDelta - 12 && r.roceDelta == b.roceDelta - 3
                  && r.safetyDelta == b.safetyDelta && r.otifDelta == b.otifDelta)
            && (r.shock == Some("DEMAND_SURGE") ==>
                  r.otifDelta == b.otifDelta - 8 && r.safetyDelta == b.safetyDelta + 25
                  && r.fcfDelta == b.fcfDelta - 6 && r.leadTimeDelta == b.leadTimeDelta
                  && r.pipelineDelta == b.pipelineDelta && r.roceDelta == b.roceDelta)
  {
    var rows := GenerateScenarioControl();
    assert rows[k] == ApplyShock(Bases[k / 4], Shocks[k % 4 - 1], 1 + k);
    ApplyShockDeltas(Bases[k / 4], Shocks[k % 4 - 1], 1 + k);
  }

  /** The deltas of one shock, for any baseline. */
  lemma ApplyShockDeltas(b: Scenario, shock: string, id: int)
    ensures var r := ApplyShock(b, shock, id);
            && SameIdentity(r, b) && r.shock == Some(shock)
            && (shock == "SUPPLY_DISRUPTION" ==>
                  r.leadTimeDelta == b.leadTimeDelta + 5 && r.safetyDelta == b.safetyDelta + 20
                  && r.pipelineDelta == b.pipelineDelta + 15 && r.otifDelta == b.otifDelta - 5
                  && r.fcfDelta == b.fcfDelta - 8 && r.roceDelta == b.roceDelta)
            && (shock == "PORT_STRIKE" ==>
                  r.leadTimeDelta == b.leadTimeDelta + 10 && r.pipelineDelta == b.pipelineDelta + 30
                  && r.fcfDelta == b.fcfDelta - 12 && r.roceDelta == b.roceDelta - 3
                  && r.safetyDelta == b.safetyDelta && r.otifDelta == b.otifDelta)
            && (shock == "DEMAND_SURGE" ==>
                  r.otifDelta == b.otifDelta - 8 && r.safetyDelta == b.safetyDelta + 25
                  && r.fcfDelta == b.fcfDelta - 6 && r.leadTimeDelta == b.leadTimeDelta
                  && r.pipelineDelta == b.pipelineDelta && r.roceDelta == b.roceDelta)
  {
  }

  /** The (strategy, shock) pairs of the table are distinct: each selects at most one row. */
  lemma ScenarioKeysDistinct()
    ensures var rows := GenerateScenarioControl();
            forall i, j :: 0 <= i < j < 12 ==>
              rows[i].strategy != rows[j].strategy || rows[i].shock != rows[j].shock
  {
    var rows := GenerateScenarioControl();
    ScenarioTableLayout();
    forall i, j | 0 <= i < j < 12
      ensures rows[i].strategy != rows[j].strategy || rows[i].shock != rows[j].shock
    {
      if i / 4 == j / 4 {
        assert i % 4 != j % 4;
      } else {
        assert Bases[i / 4].strategy != Bases[j / 4].strategy;
      }
    }
  }
}
