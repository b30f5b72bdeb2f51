/**
 * The ROCE what-if calculator: given the current rows of the performance
 * table and three levers (a safety-stock reduction in percent, a lead-time
 * change in days, a batch-size change in percent), the capital employed
 * after the change and the ROCE it implies.
 */
module RoceSensitivity {
  import opened Results

  /** The columns of one performance row the calculator reads. */
  datatype PlanRow = PlanRow(rocePct: real, safetyStock: real, capitalEmployed: real, cycleStock: real, nopat: real)

  /** Capital tied up in pipeline stock per day of lead time, in USD. */
  const PipelineCostPerDay: real := 150000.0

  /** The share of a batch-size change that shows up in cycle stock. */
  const CycleElasticity: real := 0.5

  /** The columns the calculator reads. */
  datatype Field = RocePct | SafetyStock | CapitalEmployed | CycleStock | Nopat

  function Get(r: PlanRow, f: Field): real
  {
    match f
    case RocePct => r.rocePct
    case SafetyStock => r.safetyStock
    case CapitalEmployed => r.capitalEmployed
    case CycleStock => r.cycleStock
    case Nopat => r.nopat
  }

  /** A column of the rows, as `df[col]`. */
  function Column(rows: seq<PlanRow>, f: Field): (c: seq<real>)
    ensures |c| == |rows| && forall i :: 0 <= i < |rows| ==> c[i] == Get(rows[i], f)
  {
    seq(|rows|, i requires 0 <= i < |rows| => Get(rows[i], f))
  }

  /** `Series.sum()`: zero for no rows. */
  function Sum(xs: seq<real>): real
  {
    if |xs| == 0 then 0.0 else Sum(xs[..|xs| - 1]) + xs[|xs| - 1]
  }

  /** Sums add up over a split of the rows. */
  lemma {:induction false} SumAppend(xs: seq<real>, ys: seq<real>)
    ensures Sum(xs + ys) == Sum(xs) + Sum(ys)
    decreases |ys|
  {
    if |ys| == 0 {
      assert xs + ys == xs;
    } else {
      assert (xs + ys)[..|xs + ys| - 1] == xs + ys[..|ys| - 1];
      SumAppend(xs, ys[..|ys| - 1]);
    }
  }

  /** `Series.mean()`: the sum over the count, and no number (pandas' NaN) for no rows. */
  function Mean(xs: seq<real>): (m: Option<real>)
    ensures m.None? <==> |xs| == 0
    ensures m.Some? ==> m.value * (|xs| as real) == Sum(xs)
  {
    if |xs| == 0 then None else Some(Sum(xs) / (|xs| as real))
  }

  /** The mean of identical values is that value. */
  lemma {:induction false} MeanOfConstant(xs: seq<real>, x: real)
    requires |xs| > 0 && forall i :: 0 <= i < |xs| ==> xs[i] == x
    ensures Mean(xs) == Some(x)
  {
    SumOfConstant(xs, x);
    var n := |xs| as real;
    assert Sum(xs) / n == n * x / n == x;
  }

  lemma {:induction false} SumOfConstant(xs: seq<real>, x: real)
    requires forall i :: 0 <= i < |xs| ==> xs[i] == x
    ensures Sum(xs) == (|xs| as real) * x
    decreases |xs|
  {
    if |xs| > 0 {
      SumOfConstant(xs[..|xs| - 1], x);
    }
  }

  /** The dictionary `calculate_roce_sensitivity` returns; ROCE figures are absent when there are no rows. */
  datatype Sensitivity = Sensitivity(
    currentRoce: Option<real>,
    newRoce: real,
    roceDelta: Option<real>,
    roceDeltaBps: Option<real>,
    capitalFreed: real,
    pipelineImpact: real,
    cycleImpact: real,
    netCapitalImpact: real)

  /** The capital employed after the change, from the summed columns. */
  function NewCapital(capital: real, safety: real, cycle: real,
                      safetyReductionPct: real, leadTimeDelta: real, batchDelta: real): real
  {
    capital - safety * (safetyReductionPct / 100.0) + leadTimeDelta * PipelineCostPerDay
      + cycle * (batchDelta / 100.0) * CycleElasticity
  }

  /** NOPAT over capital in percent, or zero when the capital is not positive. */
  function RoceOf(nopat: real, capital: real): (r: real)
    ensures capital <= 0.0 ==> r == 0.0
    ensures capital > 0.0 ==> r * capital == nopat * 100.0
  {
    if capital > 0.0 then nopat / capital * 100.0 else 0.0
  }

  /**
   * `calculate_roce_sensitivity(current_data, safety_reduction_pct,
   * lead_time_delta, batch_delta)`.
   */
  function CalculateRoceSensitivity(rows: seq<PlanRow>, safetyReductionPct: real,
                                    leadTimeDelta: real, batchDelta: real): (s: Sensitivity)
    ensures var capital := Sum(Column(rows, CapitalEmployed));
            var newCapital := capital - s.capitalFreed + s.pipelineImpact + s.cycleImpact;
            && s.netCapitalImpact == capital - newCapital
            && s.newRoce == RoceOf(Sum(Column(rows, Nopat)), newCapital)
    ensures s.currentRoce == Mean(Column(rows, RocePct))
    ensures s.currentRoce.None? <==> |rows| == 0
    ensures s.roceDelta.Some? <==> s.currentRoce.Some?
    ensures s.roceDelta.Some? ==> s.roceDelta.value == s.newRoce - s.currentRoce.value
    ensures s.roceDeltaBps.Some? <==> s.roceDelta.Some?
    ensures s.roceDeltaBps.Some? ==> s.roceDeltaBps.value == 100.0 * s.roceDelta.value
    ensures s.capitalFreed == Sum(Column(rows, SafetyStock)) * (safetyReductionPct / 100.0)
    ensures s.pipelineImpact == leadTimeDelta * PipelineCostPerDay
    ensures s.cycleImpact == Sum(Column(rows, CycleStock)) * (batchDelta / 100.0) * CycleElasticity
    ensures safetyReductionPct == 0.0 ==> s.capitalFreed == 0.0
    ensures leadTimeDelta == 0.0 ==> s.pipelineImpact == 0.0
    ensures batchDelta == 0.0 ==> s.cycleImpact == 0.0
  {
    var currentRoce := Mean(Column(rows, RocePct));
    var safety := Sum(Column(rows, SafetyStock));
    var capital := Sum(Column(rows, CapitalEmployed));
    var cycle := Sum(Column(rows, CycleStock));
    var nopat := Sum(Column(rows, Nopat));
    var freed := safety * (safetyReductionPct / 100.0);
    var pipeline := leadTimeDelta * PipelineCostPerDay;
    var cycleImpact := cycle * (batchDelta / 100.0) * CycleElasticity;
    var newCapital := NewCapital(capital, safety, cycle, safetyReductionPct, leadTimeDelta, batchDelta);
    var newRoce := RoceOf(nopat, newCapital);
    var delta := if currentRoce.Some? then Some(newRoce - currentRoce.value) else None;
    Sensitivity(currentRoce, newRoce, delta,
                if delta.Some? then Some((newRoce - currentRoce.value) * 100.0) else None,
                freed, pipeline, cycleImpact, freed - pipeline - cycleImpact)
  }

  /** With every lever at zero the capital is unchanged, so the new ROCE is NOPAT over today's capital. */
  lemma NoChangeKeepsCapital(rows: seq<PlanRow>)
    ensures var s := CalculateRoceSensitivity(rows, 0.0, 0.0, 0.0);
            && s.netCapitalImpact == 0.0
            && s.newRoce == RoceOf(Sum(Column(rows, Nopat)), Sum(Column(rows, CapitalEmployed)))
  {
  }

  /**
   * With positive NOPAT and safety stock, cutting safety stock further
   * raises the new ROCE, as long as the capital stays positive.
   */
  lemma DeeperSafetyCutRaisesRoce(rows: seq<PlanRow>, p1: real, p2: real, leadTimeDelta: real, batchDelta: real)
    requires p1 < p2
    requires Sum(Column(rows, Nopat)) > 0.0 && Sum(Column(rows, SafetyStock)) > 0.0
    requires CalculateRoceSensitivity(rows, p2, leadTimeDelta, batchDelta).netCapitalImpact
             < Sum(Column(rows, CapitalEmployed))
    ensures CalculateRoceSensitivity(rows, p1, leadTimeDelta, batchDelta).newRoce
            < CalculateRoceSensitivity(rows, p2, leadTimeDelta, batchDelta).newRoce
  {
    var nopat := Sum(Column(rows, Nopat));
    var safety := Sum(Column(rows, SafetyStock));
    var capital := Sum(Column(rows, CapitalEmployed));
    var cycle := Sum(Column(rows, CycleStock));
    var c1 := NewCapital(capital, safety, cycle, p1, leadTimeDelta, batchDelta);
    var c2 := NewCapital(capital, safety, cycle, p2, leadTimeDelta, batchDelta);
    assert safety * (p1 / 100.0) < safety * (p2 / 100.0);
    assert 0.0 < c2 < c1;
    assert nopat / c1 < nopat / c2 by {
      QuotientDecreases(nopat, c2, c1);
    }
  }

  /**
   * With positive NOPAT, a longer lead time ties more capital up in the
   * pipeline and so lowers the new ROCE, as long as the capital stays
   * positive.
   */
  lemma LongerLeadTimeLowersRoce(rows: seq<PlanRow>, safetyReductionPct: real, l1: real, l2: real, batchDelta: real)
    requires l1 < l2
    requires Sum(Column(rows, Nopat)) > 0.0
    requires CalculateRoceSensitivity(rows, safetyReductionPct, l1, batchDelta).netCapitalImpact
             < Sum(Column(rows, CapitalEmployed))
    ensures CalculateRoceSensitivity(rows, safetyReductionPct, l2, batchDelta).newRoce
            < CalculateRoceSensitivity(rows, safetyReductionPct, l1, batchDelta).newRoce
  {
    var nopat := Sum(Column(rows, Nopat));
    var safety := Sum(Column(rows, SafetyStock));
    var capital := Sum(Column(rows, CapitalEmployed));
    var cycle := Sum(Column(rows, CycleStock));
    var c1 := NewCapital(capital, safety, cycle, safetyReductionPct, l1, batchDelta);
    var c2 := NewCapital(capital, safety, cycle, safetyReductionPct, l2, batchDelta);
    assert 0.0 < c1 < c2;
    assert nopat / c2 < nopat / c1 by {
      QuotientDecreases(nopat, c1, c2);
    }
  }

  /**
   * With positive NOPAT and cycle stock, larger batches raise cycle stock
   * and so lower the new ROCE, as long as the capital stays positive.
   */
  lemma LargerBatchLowersRoce(rows: seq<PlanRow>, safetyReductionPct: real, leadTimeDelta: real, b1: real, b2: real)
    requires b1 < b2
    requires Sum(Column(rows, Nopat)) > 0.0 && Sum(Column(rows, CycleStock)) > 0.0
    requires CalculateRoceSensitivity(rows, safetyReductionPct, leadTimeDelta, b1).netCapitalImpact
             < Sum(Column(rows, CapitalEmployed))
    ensures CalculateRoceSensitivity(rows, safetyReductionPct, leadTimeDelta, b2).newRoce
            < CalculateRoceSensitivity(rows, safetyReductionPct, leadTimeDelta, b1).newRoce
  {
    var nopat := Sum(Column(rows, Nopat));
    var safety := Sum(Column(rows, SafetyStock));
    var capital := Sum(Column(rows, CapitalEmployed));
    var cycle := Sum(Column(rows, CycleStock));
    var c1 := NewCapital(capital, safety, cycle, safetyReductionPct, leadTimeDelta, b1);
    var c2 := NewCapital(capital, safety, cycle, safetyReductionPct, leadTimeDelta, b2);
    assert cycle * (b1 / 100.0) < cycle * (b2 / 100.0);
    assert 0.0 < c1 < c2;
    assert nopat / c2 < nopat / c1 by {
      QuotientDecreases(nopat, c1, c2);
    }
  }

  lemma QuotientDecreases(n: real, a: real, b: real)
    requires n > 0.0 && 0.0 < a < b
    ensures n / b < n / a
  {
    assert n / b * b == n && n / a * a == n;
    assert n / b * a < n / b * b;
  }
}
