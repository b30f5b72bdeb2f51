/**
 * The structure of the synthetic PERFORMANCE_SNAPSHOT table
 * (`generate_performance_snapshot`): one row per month, region and strategy
 * mode, numbered consecutively, with the mode's adjustments, the clamps,
 * and the values derived from the random draws. The draws themselves are
 * inputs: `draw(k)` is what the random generator yields for row `k`.
 */
module Snapshot {
  import opened Reals

  /** A first-of-month date. */
  datatype Date = Date(year: int, month: int)

  const Regions: seq<string> := ["NORTH_AMERICA", "EUROPE", "ASIA_PACIFIC", "LATAM"]
  const StrategyModes: seq<string> := ["GROWTH", "MARGIN", "CASH"]

  /** Rows per month: one per region and mode. */
  const RowsPerMonth: nat := 12

  /**
   * The random values one row consumes, in the units the generator draws
   * them: normal draws for OTIF, margin, ROCE and forecast error, uniform
   * draws in millions of USD for the stock and financial columns, and the
   * month's seasonal term (a sine of the month number, not modelled).
   */
  datatype Draws = Draws(
    baseOtif: real, baseMargin: real, baseRoce: real, seasonal: real,
    cycle: real, safety: real, pipeline: real, anticipation: real, strategic: real,
    nopat: real, capitalEmployed: real, wcDelta: real, faDelta: real,
    forecastMape: real)

  /** The PERFORMANCE_SNAPSHOT columns this model keeps. */
  datatype Row = Row(
    snapshotId: int, date: Date, region: string, mode: string,
    otifPct: real, grossMarginPct: real, rocePct: real, forecastMapePct: real,
    cycleStock: real, safetyStock: real, pipelineStock: real, anticipationStock: real, strategicStock: real,
    totalInventory: real,
    nopat: real, capitalEmployed: real, wcDelta: real, faDelta: real, freeCashFlow: real, eva: real)

  /** How a strategy mode shifts OTIF, gross margin and ROCE; every other mode is treated as CASH. */
  datatype Adjustment = Adjustment(otif: int, margin: int, roce: int)

  function ModeAdjustment(mode: string): Adjustment
  {
    if mode == "GROWTH" then Adjustment(3, -2, -1)
    else if mode == "MARGIN" then Adjustment(-2, 4, 1)
    else Adjustment(-1, -1, 3)
  }

  /** `min(hi, max(lo, x))`. */
  function Clamp(lo: real, hi: real, x: real): (r: real)
    requires lo <= hi
    ensures lo <= r <= hi
    ensures lo <= x <= hi ==> r == x
    ensures x < lo ==> r == lo
    ensures x > hi ==> r == hi
  {
    Min(hi, Max(lo, x))
  }

  lemma ClampMonotone(lo: real, hi: real, x: real, y: real)
    requires lo <= hi && x <= y
    ensures Clamp(lo, hi, x) <= Clamp(lo, hi, y)
  {
  }

  /** The upward drift with time: 0.05 per month counted from the start of 2023. */
  function Trend(d: Date): real
  {
    (d.month + (d.year - 2023) * 12) as real * 0.05
  }

  const Million: real := 1000000.0

  /** The row for one (month, region, mode) combination, before rounding. */
  function SnapshotRow(id: int, d: Date, region: string, mode: string, x: Draws): (r: Row)
    ensures r.snapshotId == id && r.date == d && r.region == region && r.mode == mode
    ensures 80.0 <= r.otifPct <= 99.0
    ensures 20.0 <= r.grossMarginPct <= 50.0
    ensures 5.0 <= r.rocePct <= 25.0
    ensures r.forecastMapePct >= 5.0
    ensures r.totalInventory == r.cycleStock + r.safetyStock + r.pipelineStock + r.anticipationStock + r.strategicStock
    ensures r.freeCashFlow == r.nopat - r.wcDelta - r.faDelta
    ensures r.eva == r.nopat - 0.10 * r.capitalEmployed
  {
    var adj := ModeAdjustment(mode);
    var cycle := x.cycle * Million;
    var safety := x.safety * Million;
    var pipeline := x.pipeline * Million;
    var anticipation := x.anticipation * Million * (1.0 + x.seasonal * 0.3);
    var strategic := x.strategic * Million;
    var nopat := x.nopat * Million;
    var capital := x.capitalEmployed * Million;
    var wc := x.wcDelta * Million;
    var fa := x.faDelta * Million;
    Row(id, d, region, mode,
        Clamp(80.0, 99.0, x.baseOtif + adj.otif as real + x.seasonal),
        Clamp(20.0, 50.0, x.baseMargin + adj.margin as real + x.seasonal),
        Clamp(5.0, 25.0, x.baseRoce + adj.roce as real + Trend(d) * 0.2),
        Max(5.0, x.forecastMape),
        cycle, safety, pipeline, anticipation, strategic,
        cycle + safety + pipeline + anticipation + strategic,
        nopat, capital, wc, fa, nopat - wc - fa, nopat - capital * 0.10)
  }

  /**
   * The strategy trade-off the adjustments encode: on the same draws, GROWTH
   * has the best OTIF, MARGIN the best gross margin, and CASH the best ROCE.
   */
  lemma ModesFavourTheirObjective(d: Date, region: string, x: Draws)
    ensures var g, m, c := SnapshotRow(0, d, region, "GROWTH", x), SnapshotRow(0, d, region, "MARGIN", x),
                           SnapshotRow(0, d, region, "CASH", x);
            && g.otifPct >= m.otifPct && g.otifPct >= c.otifPct
            && m.grossMarginPct >= g.grossMarginPct && m.grossMarginPct >= c.grossMarginPct
            && c.rocePct >= g.rocePct && c.rocePct >= m.rocePct
  {
    var t := Trend(d) * 0.2;
    ClampMonotone(80.0, 99.0, x.baseOtif - 2.0 + x.seasonal, x.baseOtif + 3.0 + x.seasonal);
    ClampMonotone(80.0, 99.0, x.baseOtif - 1.0 + x.seasonal, x.baseOtif + 3.0 + x.seasonal);
    ClampMonotone(20.0, 50.0, x.baseMargin - 2.0 + x.seasonal, x.baseMargin + 4.0 + x.seasonal);
    ClampMonotone(20.0, 50.0, x.baseMargin - 1.0 + x.seasonal, x.baseMargin + 4.0 + x.seasonal);
    ClampMonotone(5.0, 25.0, x.baseRoce - 1.0 + t, x.baseRoce + 3.0 + t);
    ClampMonotone(5.0, 25.0, x.baseRoce + 1.0 + t, x.baseRoce + 3.0 + t);
  }

  /** Where row `k` of the table sits in the (month, region, mode) nesting. */
  function MonthOf(k: nat): nat { k / RowsPerMonth }
  function RegionOf(k: nat): nat { k % RowsPerMonth / |StrategyModes| }
  function ModeOf(k: nat): nat { k % |StrategyModes| }

  /** The row the generator emits at position `k`. */
  function ExpectedRow(dates: seq<Date>, draw: nat -> Draws, k: nat): Row
    requires k < RowsPerMonth * |dates|
  {
    assert MonthOf(k) < |dates| by { PositionBounds(k, |dates|); }
    SnapshotRow(k + 1, dates[MonthOf(k)], Regions[RegionOf(k)], StrategyModes[ModeOf(k)], draw(k))
  }

  lemma PositionBounds(k: nat, months: nat)
    requires k < RowsPerMonth * months
    ensures MonthOf(k) < months && RegionOf(k) < 4 && ModeOf(k) < 3
  {
  }

  /** Row `12 m + 3 r + c` belongs to month `m`, region `r` and mode `c`. */
  lemma Position(m: nat, r: nat, c: nat)
    requires r < 4 && c < 3
    ensures MonthOf(12 * m + 3 * r + c) == m
    ensures RegionOf(12 * m + 3 * r + c) == r
    ensures ModeOf(12 * m + 3 * r + c) == c
  {
    var k := 12 * m + 3 * r + c;
    assert k == 12 * m + (3 * r + c) && 3 * r + c < 12;
    assert k % 12 == 3 * r + c;
    assert k == 3 * (4 * m + r) + c;
  }

  /**
   * `generate_performance_snapshot`: the triple loop over months, regions
   * and modes. It yields twelve rows per month, numbered 1..n in nested
   * (month, region, mode) order.
   */
  method GeneratePerformanceSnapshot(dates: seq<Date>, draw: nat -> Draws) returns (rows: seq<Row>)
    ensures |rows| == RowsPerMonth * |dates|
    ensures forall k :: 0 <= k < |rows| ==> rows[k] == ExpectedRow(dates, draw, k)
  {
    rows := [];
    var snapshotId := 1;
    for m := 0 to |dates|
      invariant |rows| == 12 * m && snapshotId == |rows| + 1
      invariant forall k :: 0 <= k < |rows| ==> rows[k] == ExpectedRow(dates, draw, k)
    {
      for r := 0 to |Regions|
        invariant |rows| == 12 * m + 3 * r && snapshotId == |rows| + 1
        invariant forall k :: 0 <= k < |rows| ==> rows[k] == ExpectedRow(dates, draw, k)
      {
        for c := 0 to |StrategyModes|
          invariant |rows| == 12 * m + 3 * r + c && snapshotId == |rows| + 1
          invariant forall k :: 0 <= k < |rows| ==> rows[k] == ExpectedRow(dates, draw, k)
        {
          Position(m, r, c);
          var row := SnapshotRow(snapshotId, dates[m], Regions[r], StrategyModes[c], draw(snapshotId - 1));
          assert row == ExpectedRow(dates, draw, |rows|);
          rows := rows + [row];
          snapshotId := snapshotId + 1;
        }
      }
    }
  }

  /** Every (month, region, mode) combination has exactly the row at position `12 m + 3 r + c`. */
  lemma EachCombinationOnce(dates: seq<Date>, draw: nat -> Draws, m: nat, r: nat, c: nat)
    requires m < |dates| && r < 4 && c < 3
    ensures var k := 12 * m + 3 * r + c;
            && k < RowsPerMonth * |dates|
            && ExpectedRow(dates, draw, k).date == dates[m]
            && ExpectedRow(dates, draw, k).region == Regions[r]
            && ExpectedRow(dates, draw, k).mode == StrategyModes[c]
  {
    Position(m, r, c);
  }
}
