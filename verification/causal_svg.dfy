/**
 * The geometry of the SVG causal diagram (`create_causal_svg`): the x
 * position of each node card in its row, which trace rows become edges,
 * and how a selected relationship is emphasised. Markup, colours and
 * label text are not modelled.
 */
module CausalSvg {
  import opened Results
  import opened Seqs
  import opened CausalLayout
  import opened Reals

  const SvgWidth := 1000
  const NodeWidth := 160
  const NodeHeight := 44

  /** The y of each row's card centre. */
  const DriverRowY := 80
  const LeverRowY := 300
  const OutcomeRowY := 520

  /** Python's `int(x)` on a float: truncation toward zero. */
  function Trunc(x: real): (r: int)
    ensures x >= 0.0 ==> r as real <= x < r as real + 1.0
    ensures x < 0.0 ==> r as real - 1.0 < x <= r as real
  {
    if x >= 0.0 then x.Floor else -((-x).Floor)
  }

  lemma TruncMonotone(x: real, y: real)
    requires x <= y
    ensures Trunc(x) <= Trunc(y)
  {
  }

  /** The gap between neighbouring card centres for `n` cards: at most a card width plus 30. */
  function Spacing(n: nat, width: int): real
    requires n > 0
  {
    Min((NodeWidth + 30) as real, (width - 100) as real / n as real)
  }

  /** The exact (untruncated) x of card `i` of `n`. */
  function RawX(n: nat, width: int, i: int): real
    requires n > 0
  {
    var spacing := Spacing(n, width);
    var start := (width as real - spacing * (n - 1) as real) / 2.0;
    start + i as real * spacing
  }

  /** The dict comprehension of `get_x_positions`, visiting `items[i..]`. */
  function AssignX(m: map<string, int>, items: seq<string>, width: int, i: nat): map<string, int>
    requires 0 < |items| && i <= |items|
    decreases |items| - i
  {
    if i == |items| then m else AssignX(m[items[i] := Trunc(RawX(|items|, width, i))], items, width, i + 1)
  }

  /** `get_x_positions(items, total_width)`. */
  function XPositions(items: seq<string>, width: int): map<string, int>
  {
    if |items| == 0 then map[] else AssignX(map[], items, width, 0)
  }

  lemma {:induction false} AssignXWrites(m: map<string, int>, items: seq<string>, width: int, i: nat, n: string)
    requires 0 < |items| && i <= |items| && NoDup(items)
    ensures var r := AssignX(m, items, width, i);
            && (n in r <==> n in m || n in items[i..])
            && (n in items[i..] ==> n in r && r[n] == Trunc(RawX(|items|, width, IndexOf(items, n))))
            && (n !in items[i..] && n in m ==> n in r && r[n] == m[n])
    decreases |items| - i
  {
    if i < |items| {
      AssignXWrites(m[items[i] := Trunc(RawX(|items|, width, i))], items, width, i + 1, n);
      assert items[i..] == [items[i]] + items[i + 1..];
      if n == items[i] {
        assert IndexOf(items, n) == i;
        assert n !in items[i + 1..];
      }
    }
  }

  /**
   * No items give an empty map; otherwise each item of a column (which
   * never repeats a node) gets the truncated x of its index.
   */
  lemma XPositionsOfItems(items: seq<string>, width: int, n: string)
    requires NoDup(items)
    ensures var xs := XPositions(items, width);
            && (|items| == 0 ==> xs == map[])
            && (n in xs <==> n in items)
            && (n in items ==> xs[n] == Trunc(RawX(|items|, width, IndexOf(items, n))))
  {
    if |items| > 0 {
      assert items[0..] == items;
      AssignXWrites(map[], items, width, 0, n);
    }
  }

  /** The cards of a row are centred: card i and card n − 1 − i are mirror images about width / 2. */
  lemma RawXCentred(n: nat, width: int, i: int)
    requires n > 0
    ensures RawX(n, width, i) + RawX(n, width, n - 1 - i) == width as real
  {
  }

  /** With the space the row leaves (width ≥ 100), cards never move left as the index grows. */
  lemma XPositionsMonotone(n: nat, width: int, i: int, j: int)
    requires n > 0 && width >= 100 && i <= j
    ensures RawX(n, width, i) <= RawX(n, width, j)
    ensures Trunc(RawX(n, width, i)) <= Trunc(RawX(n, width, j))
  {
    var spacing := Spacing(n, width);
    assert spacing >= 0.0;
    assert RawX(n, width, j) - RawX(n, width, i) == (j - i) as real * spacing;
    TruncMonotone(RawX(n, width, i), RawX(n, width, j));
  }

  /** On the 1000-unit canvas every card centre lies strictly between x = 50 and x = 950. */
  lemma XPositionsInCanvas(n: nat, i: int)
    requires 0 <= i < n
    ensures 50 <= Trunc(RawX(n, SvgWidth, i)) < 950
  {
    var spacing := Spacing(n, SvgWidth);
    assert spacing <= 900.0 / n as real;
    assert spacing * n as real <= 900.0;
    assert spacing > 0.0;
    var start := (1000.0 - spacing * (n - 1) as real) / 2.0;
    assert spacing * (n - 1) as real == spacing * n as real - spacing;
    assert start > 50.0;
    assert RawX(n, SvgWidth, i) >= start;
    XPositionsMonotone(n, SvgWidth, i, n - 1);
    RawXCentred(n, SvgWidth, 0);
    assert RawX(n, SvgWidth, n - 1) == 1000.0 - start;
  }

  /** The x positions of the three rows. */
  datatype SvgLayout = SvgLayout(driverX: map<string, int>, leverX: map<string, int>, outcomeX: map<string, int>)

  function LayoutOf(c: Columns): SvgLayout
  {
    SvgLayout(XPositions(c.drivers, SvgWidth), XPositions(c.levers, SvgWidth), XPositions(c.outcomes, SvgWidth))
  }

  datatype Marker = ArrowPos | ArrowNeg | ArrowPosSelected | ArrowNegSelected

  /** One drawn relationship: end points, opacity, stroke width, arrow head and glow. */
  datatype Edge = Edge(relId: string, x1: int, y1: int, x2: int, y2: int,
                       opacity: real, strokeWidth: real, marker: Marker, glow: bool)

  /** The id a relationship is selected by. */
  function RelId(t: Trace): string
  {
    t.source + "__" + t.target
  }

  /**
   * One iteration of the edge loop: the edge drawn for trace `t`, or
   * `None` when the loop `continue`s because an end has no usable card.
   */
  function SvgEdge(layout: SvgLayout, t: Trace, selected: Option<string>): (e: Option<Edge>)
    ensures e.Some? <==> (t.source in layout.driverX || t.source in layout.leverX)
                         && (t.target in layout.leverX || t.target in layout.outcomeX)
    ensures e.Some? ==> e.value.relId == RelId(t)
    ensures e.Some? ==> e.value.glow == (selected == Some(RelId(t)))
  {
    var src, tgt := t.source, t.target;
    if !(src in layout.driverX || src in layout.leverX) then None
    else
      var x1 := if src in layout.driverX then layout.driverX[src] else layout.leverX[src];
      var y1 := if src in layout.driverX then DriverRowY + NodeHeight / 2 + 10 else LeverRowY + NodeHeight / 2 + 10;
      if !(tgt in layout.leverX || tgt in layout.outcomeX) then None
      else
        var x2 := if tgt in layout.leverX then layout.leverX[tgt] else layout.outcomeX[tgt];
        var y2 := if tgt in layout.leverX then LeverRowY - NodeHeight / 2 + 10 else OutcomeRowY - NodeHeight / 2 + 10;
        var weight := Abs(t.weight);
        var positive := t.relationship == "POSITIVE";
        var isSelected := selected == Some(RelId(t));
        var baseOpacity := 0.35 + weight * 0.35;
        var marker := if isSelected then (if positive then ArrowPosSelected else ArrowNegSelected)
                      else (if positive then ArrowPos else ArrowNeg);
        Some(Edge(RelId(t), x1, y1, x2, y2,
                  if isSelected then 1.0 else baseOpacity,
                  (1.5 + weight * 2.5) * (if isSelected then 2.2 else 1.0),
                  marker, isSelected))
  }

  /**
   * An edge leaves the bottom of its source card (y 112 for a driver, 332
   * for a lever) and ends at the top of its target card (y 288 for a
   * lever, 508 for an outcome); an unselected edge's opacity is
   * 0.35 + 0.35·|weight|, its stroke 1.5 + 2.5·|weight|, and its arrow
   * carries the relationship's sign.
   */
  lemma EdgeGeometry(layout: SvgLayout, t: Trace)
    requires SvgEdge(layout, t, None).Some?
    ensures var e := SvgEdge(layout, t, None).value;
            && (e.y1 == 112 <==> t.source in layout.driverX) && (e.y1 == 112 || e.y1 == 332)
            && (e.y2 == 288 <==> t.target in layout.leverX) && (e.y2 == 288 || e.y2 == 508)
            && e.opacity == 0.35 + 0.35 * Abs(t.weight) && e.strokeWidth == 1.5 + 2.5 * Abs(t.weight)
            && (e.marker == ArrowPos <==> t.relationship == "POSITIVE") && (e.marker == ArrowPos || e.marker == ArrowNeg)
  {
  }

  /**
   * Selecting a relationship changes only the style of its own edge: same
   * end points, full opacity (never fainter than unselected for weights in
   * [-1, 1]), a stroke 2.2 times wider, the selected variant of the same
   * arrow and a glow. Selecting any other id leaves the edge as it was.
   */
  lemma SelectionEmphasises(layout: SvgLayout, t: Trace, other: string)
    requires SvgEdge(layout, t, None).Some?
    requires other != RelId(t)
    ensures var plain, sel := SvgEdge(layout, t, None).value, SvgEdge(layout, t, Some(RelId(t))).value;
            && (sel.x1, sel.y1, sel.x2, sel.y2) == (plain.x1, plain.y1, plain.x2, plain.y2)
            && sel.opacity == 1.0
            && (Abs(t.weight) <= 1.0 ==> plain.opacity <= sel.opacity)
            && sel.strokeWidth == 2.2 * plain.strokeWidth
            && (sel.marker == ArrowPosSelected <==> plain.marker == ArrowPos)
            && (sel.marker == ArrowPosSelected || sel.marker == ArrowNegSelected)
            && sel.glow && !plain.glow
    ensures SvgEdge(layout, t, Some(other)) == SvgEdge(layout, t, None)
  {
  }

  /** The edge loop over the trace rows, in row order. */
  function SvgEdges(layout: SvgLayout, traces: seq<Trace>, selected: Option<string>): (edges: seq<Edge>)
    ensures |edges| <= |traces|
    decreases |traces|
  {
    if |traces| == 0 then []
    else
      var rest := SvgEdges(layout, traces[1..], selected);
      match SvgEdge(layout, traces[0], selected)
      case Some(e) => [e] + rest
      case None => rest
  }

  /** Every drawn edge comes from a trace row, and every row whose ends have cards is drawn. */
  lemma {:induction false} SvgEdgesComplete(layout: SvgLayout, traces: seq<Trace>, selected: Option<string>)
    ensures forall i :: 0 <= i < |traces| && SvgEdge(layout, traces[i], selected).Some? ==>
              SvgEdge(layout, traces[i], selected).value in SvgEdges(layout, traces, selected)
    ensures forall e :: e in SvgEdges(layout, traces, selected) ==>
              exists i :: 0 <= i < |traces| && SvgEdge(layout, traces[i], selected) == Some(e)
    decreases |traces|
  {
    if |traces| > 0 {
      SvgEdgesComplete(layout, traces[1..], selected);
      var rest := SvgEdges(layout, traces[1..], selected);
      forall i | 0 < i < |traces|
        ensures traces[i] == traces[1..][i - 1]
      {
      }
      forall e | e in SvgEdges(layout, traces, selected)
        ensures exists i :: 0 <= i < |traces| && SvgEdge(layout, traces[i], selected) == Some(e)
      {
        if e in rest {
          var k :| 0 <= k < |traces[1..]| && SvgEdge(layout, traces[1..][k], selected) == Some(e);
          assert SvgEdge(layout, traces[k + 1], selected) == Some(e);
        } else {
          assert SvgEdge(layout, traces[0], selected) == Some(e);
        }
      }
    }
  }

  /**
   * On the classified layout the edge filter reads as a rule about
   * columns: a trace row is drawn exactly when its source is not an
   * outcome and its target is not a driver.
   */
  lemma ClassifiedEdgeRule(traces: seq<Trace>, order: seq<string>, i: int, selected: Option<string>)
    requires EnumeratesRemaining(traces, order)
    requires 0 <= i < |traces|
    ensures var c := Classify(traces, order);
            SvgEdge(LayoutOf(c), traces[i], selected).Some? <==>
              traces[i].source !in c.outcomes && traces[i].target !in c.drivers
  {
    ClassificationPartition(traces, order);
    var c := Classify(traces, order);
    var src, tgt := traces[i].source, traces[i].target;
    assert src in Sources(traces) && tgt in Targets(traces);
    XPositionsOfItems(c.drivers, SvgWidth, src);
    XPositionsOfItems(c.levers, SvgWidth, src);
    XPositionsOfItems(c.outcomes, SvgWidth, src);
    XPositionsOfItems(c.drivers, SvgWidth, tgt);
    XPositionsOfItems(c.levers, SvgWidth, tgt);
    XPositionsOfItems(c.outcomes, SvgWidth, tgt);
  }

  /** What `create_causal_svg` draws. */
  datatype Diagram =
    | Placeholder
    | Drawing(columns: Columns, layout: SvgLayout, edges: seq<Edge>)

  /**
   * `create_causal_svg(traces, selected)`: the fixed "no relationships"
   * picture for an empty trace table, otherwise the classified columns,
   * their x positions and the edges.
   */
  function CreateCausalSvg(traces: seq<Trace>, order: seq<string>, selected: Option<string>): (d: Diagram)
    requires EnumeratesRemaining(traces, order)
    ensures d.Placeholder? <==> |traces| == 0
    ensures d.Drawing? ==> d.columns == Classify(traces, order) && d.layout == LayoutOf(d.columns)
    ensures d.Drawing? ==> |d.edges| <= |traces|
    ensures d.Drawing? ==> d.edges == SvgEdges(d.layout, traces, selected)
    ensures d.Drawing? ==>
              forall i :: 0 <= i < |traces| && SvgEdge(d.layout, traces[i], selected).Some? ==>
                SvgEdge(d.layout, traces[i], selected).value in d.edges
    ensures d.Drawing? ==>
              forall e :: e in d.edges ==> exists i :: 0 <= i < |traces| && SvgEdge(d.layout, traces[i], selected) == Some(e)
  {
    if |traces| == 0 then Placeholder
    else
      var c := Classify(traces, order);
      var layout := LayoutOf(c);
      SvgEdgesComplete(layout, traces, selected);
      Drawing(c, layout, SvgEdges(layout, traces, selected))
  }
}
