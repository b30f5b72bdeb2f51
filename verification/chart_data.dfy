/**
 * The data the dashboard's Plotly charts are built from: the node and link
 * lists of the causal Sankey diagram, the corner markers of the strategy
 * triangle, and the measure and colour lists of the impact waterfall.
 * Figure construction itself is not modelled.
 */
module ChartData {
  import opened Results
  import opened Seqs
  import opened Reals
  import CausalLayout

  type Trace = CausalLayout.Trace

  /** The node colours of the Sankey diagram. */
  datatype NodeTone = CostTone | BlueTone | ServiceTone | BorderTone

  /** The link colours of the Sankey diagram: green for a positive relationship, red otherwise. */
  datatype LinkTone = Green | Red

  /** One Sankey link: indices into the node list, its width and its colour. */
  datatype Link = Link(source: nat, target: nat, value: real, tone: LinkTone)

  /** A Sankey figure's data, or the empty figure for no traces. */
  datatype Sankey = EmptyFigure | Sankey(nodes: seq<string>, nodeTones: seq<NodeTone>, links: seq<Link>)

  /** The Sankey diagram's own column lists, shorter than the causal tree's. */
  const SankeyDrivers: seq<string> := ["FORECAST_MAPE_PCT", "LEAD_TIME_DAYS", "BATCH_SIZE", "OEE_PCT"]
  const SankeyLevers: seq<string> := ["SAFETY_STOCK_VALUE", "PIPELINE_STOCK_VALUE", "CYCLE_STOCK_VALUE", "COGS_USD"]
  const SankeyOutcomes: seq<string> := ["ROCE_PCT", "FREE_CASH_FLOW_USD", "GROSS_MARGIN_PCT"]

  /** A node's colour: the first of the driver, lever and outcome lists it is in decides. */
  function NodeToneOf(node: string): NodeTone
  {
    if node in SankeyDrivers then CostTone
    else if node in SankeyLevers then BlueTone
    else if node in SankeyOutcomes then ServiceTone
    else BorderTone
  }

  /**
   * `all_nodes`: the distinct metrics of the traces in the order Python's
   * set happens to iterate them. The order is a parameter of the model.
   */
  ghost predicate EnumeratesMetrics(traces: seq<Trace>, allNodes: seq<string>)
  {
    NoDup(allNodes) && Elems(allNodes) == CausalLayout.Metrics(traces)
  }

  /** `node_indices`: each node's position in `all_nodes`. */
  function NodeIndices(allNodes: seq<string>): (idx: map<string, nat>)
    ensures idx.Keys == Elems(allNodes)
    ensures forall n :: n in idx ==> idx[n] < |allNodes| && allNodes[idx[n]] == n
  {
    map n | n in allNodes :: IndexOf(allNodes, n)
  }

  /** Without duplicates the index map is a bijection onto `0 .. k-1`: the node at position `i` has index `i`. */
  lemma NodeIndicesBijection(allNodes: seq<string>, i: int)
    requires NoDup(allNodes) && 0 <= i < |allNodes|
    ensures allNodes[i] in NodeIndices(allNodes) && NodeIndices(allNodes)[allNodes[i]] == i
  {
    var idx := NodeIndices(allNodes);
    assert allNodes[i] in Elems(allNodes);
    var j := idx[allNodes[i]];
    assert allNodes[j] == allNodes[i];
  }

  /** `node_indices.get(n, 0)`. */
  function IndexOr0(idx: map<string, nat>, n: string): nat
  {
    if n in idx then idx[n] else 0
  }

  /** The link drawn for one trace row. */
  function LinkOf(idx: map<string, nat>, t: Trace): Link
  {
    Link(IndexOr0(idx, t.source), IndexOr0(idx, t.target), Abs(t.weight) * 10.0,
         if t.relationship == "POSITIVE" then Green else Red)
  }

  /**
   * The data of `create_causal_sankey(traces_df)`: nothing for no traces;
   * otherwise the nodes with their colours and one link per trace row.
   */
  function CausalSankey(traces: seq<Trace>, allNodes: seq<string>): (s: Sankey)
    requires EnumeratesMetrics(traces, allNodes)
    ensures s.EmptyFigure? <==> |traces| == 0
    ensures s.Sankey? ==> s.nodes == allNodes && |s.nodeTones| == |allNodes| && |s.links| == |traces|
  {
    if |traces| == 0 then EmptyFigure
    else
      var idx := NodeIndices(allNodes);
      Sankey(allNodes,
             seq(|allNodes|, i requires 0 <= i < |allNodes| => NodeToneOf(allNodes[i])),
             seq(|traces|, i requires 0 <= i < |traces| => LinkOf(idx, traces[i])))
  }

  /**
   * Every link points at the nodes of its own trace row: both indices are
   * in range and name the row's source and target metric. Its width is ten
   * times the weight's size, and it is green exactly for a positive
   * relationship.
   */
  lemma SankeyLinksFollowTraces(traces: seq<Trace>, allNodes: seq<string>, i: int)
    requires EnumeratesMetrics(traces, allNodes) && 0 <= i < |traces|
    ensures var s := CausalSankey(traces, allNodes);
            && s.links[i].source < |allNodes| && allNodes[s.links[i].source] == traces[i].source
            && s.links[i].target < |allNodes| && allNodes[s.links[i].target] == traces[i].target
            && s.links[i].value >= 0.0
            && (s.links[i].value == 10.0 * traces[i].weight || s.links[i].value == -10.0 * traces[i].weight)
            && (s.links[i].tone == Green <==> traces[i].relationship == "POSITIVE")
  {
    assert traces[i].source in CausalLayout.Sources(traces);
    assert traces[i].target in CausalLayout.Targets(traces);
  }

  /** A node is coloured by the list it belongs to, and drawn in the border colour when it is in none. */
  lemma SankeyNodeColours(traces: seq<Trace>, allNodes: seq<string>, i: int)
    requires EnumeratesMetrics(traces, allNodes) && |traces| > 0 && 0 <= i < |allNodes|
    ensures var tone := CausalSankey(traces, allNodes).nodeTones[i];
            && (tone == CostTone <==> allNodes[i] in SankeyDrivers)
            && (tone == BlueTone <==> allNodes[i] in SankeyLevers)
            && (tone == ServiceTone <==> allNodes[i] in SankeyOutcomes)
            && (tone == BorderTone <==> allNodes[i] !in SankeyDrivers + SankeyLevers + SankeyOutcomes)
  {
    SankeyListsDisjoint();
  }

  /** The three Sankey lists share no metric, so the order of the colour tests does not matter. */
  lemma SankeyListsDisjoint()
    ensures forall n :: n in SankeyDrivers ==> n !in SankeyLevers && n !in SankeyOutcomes
    ensures forall n :: n in SankeyLevers ==> n !in SankeyOutcomes
  {
  }

  /** The corners of the strategy triangle, in the order they are drawn. */
  datatype Corner = Service | Cost | Cash

  const Corners: seq<Corner> := [Service, Cost, Cash]

  /** The corner the strategy mode emphasises; any unknown mode falls back to service. */
  function ActiveCorner(mode: string): (c: Corner)
    ensures mode == "MARGIN" <==> c == Cost
    ensures mode == "CASH" <==> c == Cash
    ensures c == Service <==> mode != "MARGIN" && mode != "CASH"
  {
    if mode == "GROWTH" then Service
    else if mode == "MARGIN" then Cost
    else if mode == "CASH" then Cash
    else Service
  }

  /** The key a corner's weight is looked up under in the `weights` argument. */
  function WeightKey(c: Corner): string
  {
    match c
    case Service => "service"
    case Cost => "cost"
    case Cash => "cash"
  }

  /** The weight used when a corner has none. */
  const DefaultWeight: real := 0.33

  /** `weights.get(key, 0.33)`. */
  function WeightOf(weights: map<string, real>, c: Corner): (w: real)
    ensures WeightKey(c) in weights ==> w == weights[WeightKey(c)]
    ensures WeightKey(c) !in weights ==> w == DefaultWeight
  {
    if WeightKey(c) in weights then weights[WeightKey(c)] else DefaultWeight
  }

  /** One corner marker: its value, weight and size, and the size of its halo when it is the active corner. */
  datatype CornerMarker = CornerMarker(corner: Corner, value: real, weight: real, size: real, halo: Option<real>)

  /** The markers of `create_triangle_heatmap(service, cost, cash, mode, weights)`, one per corner in drawing order. */
  function TriangleMarkers(service: real, cost: real, cash: real, mode: string, weights: map<string, real>)
    : (ms: seq<CornerMarker>)
    ensures |ms| == 3
    ensures forall i :: 0 <= i < 3 ==> ms[i].corner == Corners[i]
    ensures ms[0].value == service && ms[1].value == cost && ms[2].value == cash
    ensures forall i :: 0 <= i < 3 ==> ms[i].weight == WeightOf(weights, Corners[i])
    ensures forall i :: 0 <= i < 3 ==> (ms[i].halo.Some? <==> Corners[i] == ActiveCorner(mode))
  {
    var values := [service, cost, cash];
    seq(3, i requires 0 <= i < 3 =>
      var w := WeightOf(weights, Corners[i]);
      var size := 35.0 + w * 30.0;
      CornerMarker(Corners[i], values[i], w, size, if Corners[i] == ActiveCorner(mode) then Some(size + 15.0) else None))
  }

  /**
   * Exactly one corner is highlighted; each marker grows by 30 per unit of
   * weight from a base of 35, the halo is 15 larger than its marker, and a
   * corner without a weight is drawn at weight 0.33.
   */
  lemma TriangleMarkerSizes(service: real, cost: real, cash: real, mode: string, weights: map<string, real>)
    ensures var ms := TriangleMarkers(service, cost, cash, mode, weights);
            && (forall i, j :: 0 <= i < j < 3 && ms[i].halo.Some? ==> ms[j].halo.None?)
            && (exists i :: 0 <= i < 3 && ms[i].halo.Some?)
            && (forall i :: 0 <= i < 3 ==> ms[i].size - 35.0 == 30.0 * ms[i].weight)
            && (forall i :: 0 <= i < 3 && ms[i].halo.Some? ==> ms[i].halo.value == ms[i].size + 15.0)
            && (forall i :: 0 <= i < 3 && WeightKey(Corners[i]) !in weights ==> ms[i].size == 44.9)
  {
    var ms := TriangleMarkers(service, cost, cash, mode, weights);
    var a := ActiveCorner(mode);
    var k := if a == Service then 0 else if a == Cost then 1 else 2;
    assert ms[k].halo.Some?;
  }

  /** Bar types of a waterfall. */
  datatype Measure = Relative | Total

  /** Bar colours of the impact waterfall. */
  datatype BarTone = Gain | Loss | TotalBlue

  /** `['relative'] * (n - 1) + ['total']`; Python repeats a list a negative number of times as no times. */
  function Measures(n: nat): (ms: seq<Measure>)
    ensures |ms| == (if n == 0 then 1 else n)
    ensures ms[|ms| - 1] == Total
    ensures forall i :: 0 <= i < |ms| - 1 ==> ms[i] == Relative
  {
    (if n == 0 then [] else seq(n - 1, _ => Relative)) + [Total]
  }

  /** `[green if v > 0 else red for v in values[:-1]] + [blue]`. */
  function BarTones(values: seq<real>): (ts: seq<BarTone>)
    ensures |ts| == (if |values| == 0 then 1 else |values|)
    ensures ts[|ts| - 1] == TotalBlue
    ensures forall i :: 0 <= i < |ts| - 1 ==> (ts[i] == Gain <==> values[i] > 0.0) && ts[i] != TotalBlue
  {
    var body := if |values| == 0 then [] else values[..|values| - 1];
    seq(|body|, i requires 0 <= i < |body| => if body[i] > 0.0 then Gain else Loss) + [TotalBlue]
  }

  /** The waterfall's bars: labels and values of the impacts in order, with their measures and colours. */
  datatype Waterfall = Waterfall(labels: seq<string>, values: seq<real>, measures: seq<Measure>, tones: seq<BarTone>)

  /** The data of `create_waterfall_impact(impacts, title)`, the impacts given in the dictionary's order. */
  function WaterfallImpact(impacts: seq<(string, real)>): (w: Waterfall)
    ensures |w.labels| == |w.values| == |impacts|
    ensures forall i :: 0 <= i < |impacts| ==> w.labels[i] == impacts[i].0 && w.values[i] == impacts[i].1
  {
    var labels := seq(|impacts|, i requires 0 <= i < |impacts| => impacts[i].0);
    var values := seq(|impacts|, i requires 0 <= i < |impacts| => impacts[i].1);
    Waterfall(labels, values, Measures(|labels|), BarTones(values))
  }

  /**
   * For at least one impact every bar has a measure and a colour: all but
   * the last are relative and coloured by the sign of their value, the last
   * is the total in blue. For no impacts the lists still hold one total bar.
   */
  lemma WaterfallBarsAligned(impacts: seq<(string, real)>)
    ensures var w := WaterfallImpact(impacts);
            && (|impacts| > 0 ==> |w.measures| == |w.tones| == |w.labels|)
            && (|impacts| == 0 ==> w.measures == [Total] && w.tones == [TotalBlue])
            && (forall i :: 0 <= i < |impacts| - 1 ==>
                  w.measures[i] == Relative && (w.tones[i] == Gain <==> impacts[i].1 > 0.0))
            && (|impacts| > 0 ==> w.measures[|impacts| - 1] == Total && w.tones[|impacts| - 1] == TotalBlue)
  {
  }
}
