/**
 * How the causal-chain views sort the metrics of the trace table into three
 * columns (process drivers, economic levers, financial outcomes) and where
 * the tree view places each node. The Plotly tree (`create_causal_tree`)
 * and the SVG diagram (`create_causal_svg`) repeat the same rule with the
 * same canonical lists; it is defined once here.
 */
module CausalLayout {
  import opened Seqs

  /** One row of the causal-trace view: an edge from `source` to `target`. */
  datatype Trace = Trace(source: string, target: string, weight: real, relationship: string)

  /** The canonical members of each column, in display order. */
  const DriverNodes: seq<string> := ["FORECAST_MAPE_PCT", "LEAD_TIME_DAYS", "BATCH_SIZE", "OEE_PCT", "SKU_BREADTH"]
  const LeverNodes: seq<string> := ["SAFETY_STOCK_VALUE", "PIPELINE_STOCK_VALUE", "CYCLE_STOCK_VALUE", "COGS_USD", "DIOH_DAYS"]
  const OutcomeNodes: seq<string> := ["FREE_CASH_FLOW_USD", "ROCE_PCT", "NET_SALES_GROWTH_PCT", "CAPITAL_EMPLOYED_USD", "OTIF_PCT"]

  /** A name's first letter and length: enough to tell the fifteen canonical names apart. */
  function Signature(n: string): (char, int)
  {
    if |n| == 0 then (' ', 0) else (n[0], |n|)
  }

  lemma CanonicalSignatures()
    ensures forall i :: 0 <= i < |DriverNodes| ==>
              Signature(DriverNodes[i]) == [('F', 17), ('L', 14), ('B', 10), ('O', 7), ('S', 11)][i]
    ensures forall i :: 0 <= i < |LeverNodes| ==>
              Signature(LeverNodes[i]) == [('S', 18), ('P', 20), ('C', 17), ('C', 8), ('D', 9)][i]
    ensures forall i :: 0 <= i < |OutcomeNodes| ==>
              Signature(OutcomeNodes[i]) == [('F', 18), ('R', 8), ('N', 20), ('C', 20), ('O', 8)][i]
  {
  }

  /** No canonical list repeats a name. */
  lemma CanonicalListsNoDup()
    ensures NoDup(DriverNodes) && NoDup(LeverNodes) && NoDup(OutcomeNodes)
  {
    CanonicalSignatures();
    forall i, j | 0 <= i < j < 5
      ensures DriverNodes[i] != DriverNodes[j] && LeverNodes[i] != LeverNodes[j] && OutcomeNodes[i] != OutcomeNodes[j]
    {
      assert Signature(DriverNodes[i]) != Signature(DriverNodes[j]);
      assert Signature(LeverNodes[i]) != Signature(LeverNodes[j]);
      assert Signature(OutcomeNodes[i]) != Signature(OutcomeNodes[j]);
    }
  }

  /** The fifteen canonical names are pairwise distinct, so no name belongs to two canonical lists. */
  lemma CanonicalListsDistinct()
    ensures NoDup(DriverNodes) && NoDup(LeverNodes) && NoDup(OutcomeNodes)
    ensures forall n :: !(n in DriverNodes && n in LeverNodes)
    ensures forall n :: !(n in DriverNodes && n in OutcomeNodes)
    ensures forall n :: !(n in LeverNodes && n in OutcomeNodes)
  {
    CanonicalListsNoDup();
    CanonicalSignatures();
    forall i, j | 0 <= i < 5 && 0 <= j < 5
      ensures DriverNodes[i] != LeverNodes[j] && DriverNodes[i] != OutcomeNodes[j] && LeverNodes[i] != OutcomeNodes[j]
    {
      assert Signature(DriverNodes[i]) != Signature(LeverNodes[j]);
      assert Signature(DriverNodes[i]) != Signature(OutcomeNodes[j]);
      assert Signature(LeverNodes[i]) != Signature(OutcomeNodes[j]);
    }
  }

  /** `set(traces_df['SOURCE_METRIC'])`. */
  function Sources(traces: seq<Trace>): set<string>
  {
    set i | 0 <= i < |traces| :: traces[i].source
  }

  /** `set(traces_df['TARGET_METRIC'])`. */
  function Targets(traces: seq<Trace>): set<string>
  {
    set i | 0 <= i < |traces| :: traces[i].target
  }

  /** Every metric that occurs in the traces. */
  function Metrics(traces: seq<Trace>): set<string>
  {
    Sources(traces) + Targets(traces)
  }

  predicate Canonical(n: string)
  {
    n in DriverNodes || n in LeverNodes || n in OutcomeNodes
  }

  /** The metrics of the traces that no canonical list names. */
  function Remaining(traces: seq<Trace>): set<string>
  {
    set n | n in Metrics(traces) && !Canonical(n)
  }

  datatype Kind = Driver | Lever | Outcome

  /**
   * The column of a metric no canonical list names: only ever a source
   * makes it a driver, only ever a target an outcome, both a lever.
   */
  function KindOf(n: string, sources: set<string>, targets: set<string>): Kind
  {
    if n in sources && n !in targets then Driver
    else if n in targets && n !in sources then Outcome
    else Lever
  }

  function OfKind(k: Kind, sources: set<string>, targets: set<string>): string -> bool
  {
    n => KindOf(n, sources, targets) == k
  }

  function InSet(s: set<string>): string -> bool
  {
    n => n in s
  }

  datatype Columns = Columns(drivers: seq<string>, levers: seq<string>, outcomes: seq<string>)

  /** One iteration of the loop over the remaining metrics: append to the metric's column. */
  function Place(cols: Columns, n: string, sources: set<string>, targets: set<string>): Columns
  {
    match KindOf(n, sources, targets)
    case Driver => cols.(drivers := cols.drivers + [n])
    case Lever => cols.(levers := cols.levers + [n])
    case Outcome => cols.(outcomes := cols.outcomes + [n])
  }

  /** The loop over the remaining metrics, visited in order `ns`. */
  function PlaceAll(cols: Columns, ns: seq<string>, sources: set<string>, targets: set<string>): Columns
    decreases |ns|
  {
    if |ns| == 0 then cols else PlaceAll(Place(cols, ns[0], sources, targets), ns[1..], sources, targets)
  }

  /** The column of kind `k`. */
  function Column(cols: Columns, k: Kind): seq<string>
  {
    match k
    case Driver => cols.drivers
    case Lever => cols.levers
    case Outcome => cols.outcomes
  }

  /** The loop appends to each column the visited metrics of that column's kind, in visiting order. */
  lemma {:induction false} PlaceAllAppendsByKind(cols: Columns, ns: seq<string>, sources: set<string>,
                                                 targets: set<string>, k: Kind)
    ensures Column(PlaceAll(cols, ns, sources, targets), k) == Column(cols, k) + Filter(ns, OfKind(k, sources, targets))
    decreases |ns|
  {
    if |ns| > 0 {
      var p := OfKind(k, sources, targets);
      var next := Place(cols, ns[0], sources, targets);
      var step := if KindOf(ns[0], sources, targets) == k then [ns[0]] else [];
      calc {
        Column(PlaceAll(cols, ns, sources, targets), k);
        Column(PlaceAll(next, ns[1..], sources, targets), k);
        { PlaceAllAppendsByKind(next, ns[1..], sources, targets, k); }
        Column(next, k) + Filter(ns[1..], p);
        { PlaceStep(cols, ns[0], sources, targets, k); }
        (Column(cols, k) + step) + Filter(ns[1..], p);
        Column(cols, k) + (step + Filter(ns[1..], p));
        { FilterCons(ns, p); }
        Column(cols, k) + Filter(ns, p);
      }
    }
  }

  lemma PlaceStep(cols: Columns, n: string, sources: set<string>, targets: set<string>, k: Kind)
    ensures Column(Place(cols, n, sources, targets), k)
            == Column(cols, k) + (if KindOf(n, sources, targets) == k then [n] else [])
  {
  }

  /** The canonical members present in the traces, in canonical order. */
  function CanonicalColumns(traces: seq<Trace>): Columns
  {
    var present := InSet(Metrics(traces));
    Columns(Filter(DriverNodes, present), Filter(LeverNodes, present), Filter(OutcomeNodes, present))
  }

  /**
   * `order` is the order in which Python happens to iterate the set of
   * remaining metrics: each of them exactly once.
   */
  ghost predicate EnumeratesRemaining(traces: seq<Trace>, order: seq<string>)
  {
    NoDup(order) && Elems(order) == Remaining(traces)
  }

  /** The column assignment of `create_causal_svg` and `create_causal_tree`. */
  function Classify(traces: seq<Trace>, order: seq<string>): Columns
    requires EnumeratesRemaining(traces, order)
  {
    PlaceAll(CanonicalColumns(traces), order, Sources(traces), Targets(traces))
  }

  /** Each column is its canonical members present, then the remaining metrics of its kind. */
  lemma ClassifyShape(traces: seq<Trace>, order: seq<string>)
    requires EnumeratesRemaining(traces, order)
    ensures var c, canon, s, t := Classify(traces, order), CanonicalColumns(traces), Sources(traces), Targets(traces);
            && c.drivers == canon.drivers + Filter(order, OfKind(Driver, s, t))
            && c.levers == canon.levers + Filter(order, OfKind(Lever, s, t))
            && c.outcomes == canon.outcomes + Filter(order, OfKind(Outcome, s, t))
  {
    var canon, s, t := CanonicalColumns(traces), Sources(traces), Targets(traces);
    PlaceAllAppendsByKind(canon, order, s, t, Driver);
    PlaceAllAppendsByKind(canon, order, s, t, Lever);
    PlaceAllAppendsByKind(canon, order, s, t, Outcome);
  }

  /** Membership of a column, by where a metric comes from. */
  lemma ColumnMembers(traces: seq<Trace>, order: seq<string>, n: string)
    requires EnumeratesRemaining(traces, order)
    ensures var c, s, t := Classify(traces, order), Sources(traces), Targets(traces);
            && (n in c.drivers <==> n in Metrics(traces) && (n in DriverNodes || (!Canonical(n) && KindOf(n, s, t) == Driver)))
            && (n in c.levers <==> n in Metrics(traces) && (n in LeverNodes || (!Canonical(n) && KindOf(n, s, t) == Lever)))
            && (n in c.outcomes <==> n in Metrics(traces) && (n in OutcomeNodes || (!Canonical(n) && KindOf(n, s, t) == Outcome)))
  {
    ClassifyShape(traces, order);
    var s, t := Sources(traces), Targets(traces);
    var present := InSet(Metrics(traces));
    assert n in order <==> n in Remaining(traces) by {
      assert n in order <==> n in Elems(order);
    }
    forall kind: Kind, canon: seq<string>
      ensures n in Filter(canon, present) + Filter(order, OfKind(kind, s, t))
              <==> (n in canon && n in Metrics(traces)) || (n in Remaining(traces) && KindOf(n, s, t) == kind)
    {
      var a, b := Filter(canon, present), Filter(order, OfKind(kind, s, t));
      if n in a + b {
        if n in a {
          var i :| 0 <= i < |a| && a[i] == n;
        } else {
          var i :| 0 <= i < |b| && b[i] == n;
        }
      }
      if n in canon && n in Metrics(traces) {
        var i := IndexOf(canon, n);
        assert present(canon[i]);
      }
      if n in Remaining(traces) && KindOf(n, s, t) == kind {
        var i := IndexOf(order, n);
        assert OfKind(kind, s, t)(order[i]);
      }
    }
  }

  /**
   * The columns partition the metrics of the traces: every metric lands in
   * exactly one column, nothing else does, and no column repeats a metric.
   */
  lemma ClassificationPartition(traces: seq<Trace>, order: seq<string>)
    requires EnumeratesRemaining(traces, order)
    ensures var c := Classify(traces, order);
            forall n :: n in Metrics(traces) <==> n in c.drivers || n in c.levers || n in c.outcomes
    ensures var c := Classify(traces, order);
            forall n :: !(n in c.drivers && n in c.levers) && !(n in c.drivers && n in c.outcomes)
                        && !(n in c.levers && n in c.outcomes)
    ensures var c := Classify(traces, order);
            NoDup(c.drivers) && NoDup(c.levers) && NoDup(c.outcomes)
  {
    var c := Classify(traces, order);
    CanonicalListsDistinct();
    forall n
      ensures n in Metrics(traces) <==> n in c.drivers || n in c.levers || n in c.outcomes
      ensures !(n in c.drivers && n in c.levers) && !(n in c.drivers && n in c.outcomes)
      ensures !(n in c.levers && n in c.outcomes)
    {
      ColumnMembers(traces, order, n);
    }
    ClassifyShape(traces, order);
    var s, t := Sources(traces), Targets(traces);
    var present := InSet(Metrics(traces));
    forall canon: seq<string>, kind: Kind | NoDup(canon) && (forall i :: 0 <= i < |canon| ==> Canonical(canon[i]))
      ensures NoDup(Filter(canon, present) + Filter(order, OfKind(kind, s, t)))
    {
      var a, b := Filter(canon, present), Filter(order, OfKind(kind, s, t));
      FilterNoDup(canon, present);
      FilterNoDup(order, OfKind(kind, s, t));
      assert forall x :: x in order ==> x in Elems(order);
      forall i | 0 <= i < |a|
        ensures a[i] !in b
      {
        assert a[i] in canon;
        var j := IndexOf(canon, a[i]);
        assert Canonical(canon[j]);
        assert a[i] !in order;
      }
      NoDupConcat(a, b);
    }
  }

  /** The canonical members come first in their columns, in canonical order. */
  lemma CanonicalMembersFirst(traces: seq<Trace>, order: seq<string>)
    requires EnumeratesRemaining(traces, order)
    ensures var c, canon := Classify(traces, order), CanonicalColumns(traces);
            && canon.drivers <= c.drivers && Subsequence(canon.drivers, DriverNodes)
            && canon.levers <= c.levers && Subsequence(canon.levers, LeverNodes)
            && canon.outcomes <= c.outcomes && Subsequence(canon.outcomes, OutcomeNodes)
  {
    ClassifyShape(traces, order);
    var present := InSet(Metrics(traces));
    FilterIsSubsequence(DriverNodes, present);
    FilterIsSubsequence(LeverNodes, present);
    FilterIsSubsequence(OutcomeNodes, present);
  }

  /**
   * The placement rule: a canonical metric goes to its own column whatever
   * its role in the traces. A metric no list names is a driver iff it is
   * only a source, an outcome iff it is only a target, and a lever iff it
   * is both.
   */
  lemma ClassificationRule(traces: seq<Trace>, order: seq<string>, n: string)
    requires EnumeratesRemaining(traces, order)
    requires n in Metrics(traces)
    ensures var c := Classify(traces, order);
            && (n in DriverNodes ==> n in c.drivers)
            && (n in LeverNodes ==> n in c.levers)
            && (n in OutcomeNodes ==> n in c.outcomes)
    ensures var c, s, t := Classify(traces, order), Sources(traces), Targets(traces);
            !Canonical(n) ==>
              && (n in c.drivers <==> n in s && n !in t)
              && (n in c.outcomes <==> n in t && n !in s)
              && (n in c.levers <==> n in s && n in t)
  {
    ColumnMembers(traces, order, n);
  }

  /** The dict a tree column's loop writes, visiting `col[i..]`: node ↦ (x, len − 1 − index). */
  function PlaceColumn(pos: map<string, (int, int)>, col: seq<string>, x: int, i: nat): map<string, (int, int)>
    requires i <= |col|
    decreases |col| - i
  {
    if i == |col| then pos else PlaceColumn(pos[col[i] := (x, |col| - 1 - i)], col, x, i + 1)
  }

  /**
   * Writing a column without repeats from index `i` on gives each of those
   * nodes x and its reversed index as y, and leaves every other key as it
   * was.
   */
  lemma {:induction false} PlaceColumnWrites(pos: map<string, (int, int)>, col: seq<string>, x: int, i: nat, n: string)
    requires i <= |col| && NoDup(col)
    ensures var r := PlaceColumn(pos, col, x, i);
            && (n in r <==> n in pos || n in col[i..])
            && (n in col[i..] ==> n in r && r[n] == (x, |col| - 1 - IndexOf(col, n)))
            && (n !in col[i..] && n in pos ==> n in r && r[n] == pos[n])
    decreases |col| - i
  {
    if i < |col| {
      var next := pos[col[i] := (x, |col| - 1 - i)];
      PlaceColumnWrites(next, col, x, i + 1, n);
      assert col[i..] == [col[i]] + col[i + 1..];
      if n == col[i] {
        assert IndexOf(col, n) == i;
        assert n !in col[i + 1..];
      }
    }
  }

  /** `node_positions` of `create_causal_tree`: drivers at x = 0, levers at x = 1, outcomes at x = 2. */
  function TreePositions(c: Columns): map<string, (int, int)>
  {
    PlaceColumn(PlaceColumn(PlaceColumn(map[], c.drivers, 0, 0), c.levers, 1, 0), c.outcomes, 2, 0)
  }

  /** Three columns without repeats that share no node, as the classification produces. */
  ghost predicate Disjoint(c: Columns)
  {
    && NoDup(c.drivers) && NoDup(c.levers) && NoDup(c.outcomes)
    && forall n :: !(n in c.drivers && n in c.levers) && !(n in c.drivers && n in c.outcomes)
                   && !(n in c.levers && n in c.outcomes)
  }

  /** Where the tree's three column loops put a node: its column's x and its reversed index. */
  lemma TreePositionOf(c: Columns, n: string)
    requires Disjoint(c)
    ensures var p := TreePositions(c);
            && (n in p <==> n in c.drivers || n in c.levers || n in c.outcomes)
            && (n in c.drivers ==> n in p && p[n] == (0, |c.drivers| - 1 - IndexOf(c.drivers, n)))
            && (n in c.levers ==> n in p && p[n] == (1, |c.levers| - 1 - IndexOf(c.levers, n)))
            && (n in c.outcomes ==> n in p && p[n] == (2, |c.outcomes| - 1 - IndexOf(c.outcomes, n)))
  {
    var p1 := PlaceColumn(map[], c.drivers, 0, 0);
    var p2 := PlaceColumn(p1, c.levers, 1, 0);
    assert c.drivers[0..] == c.drivers && c.levers[0..] == c.levers && c.outcomes[0..] == c.outcomes;
    PlaceColumnWrites(map[], c.drivers, 0, 0, n);
    PlaceColumnWrites(p1, c.levers, 1, 0, n);
    PlaceColumnWrites(p2, c.outcomes, 2, 0, n);
  }

  /**
   * Every metric of the traces gets a position, and only those do; the
   * i-th node of a column sits at (column, len − 1 − i), so y lies in
   * [0, len − 1].
   */
  lemma TreeLayout(traces: seq<Trace>, order: seq<string>, n: string)
    requires EnumeratesRemaining(traces, order)
    ensures var c, p := Classify(traces, order), TreePositions(Classify(traces, order));
            && (n in p <==> n in Metrics(traces))
            && (n in c.drivers ==> n in p && p[n] == (0, |c.drivers| - 1 - IndexOf(c.drivers, n)))
            && (n in c.levers ==> n in p && p[n] == (1, |c.levers| - 1 - IndexOf(c.levers, n)))
            && (n in c.outcomes ==> n in p && p[n] == (2, |c.outcomes| - 1 - IndexOf(c.outcomes, n)))
  {
    ClassificationPartition(traces, order);
    TreePositionOf(Classify(traces, order), n);
  }

  /** Every trace row is drawn in the tree: both of its ends have a position. */
  lemma TreeDrawsEveryTrace(traces: seq<Trace>, order: seq<string>)
    requires EnumeratesRemaining(traces, order)
    ensures var p := TreePositions(Classify(traces, order));
            forall i :: 0 <= i < |traces| ==> traces[i].source in p && traces[i].target in p
  {
    forall i | 0 <= i < |traces|
      ensures traces[i].source in TreePositions(Classify(traces, order))
      ensures traces[i].target in TreePositions(Classify(traces, order))
    {
      assert traces[i].source in Sources(traces);
      assert traces[i].target in Targets(traces);
      TreeLayout(traces, order, traces[i].source);
      TreeLayout(traces, order, traces[i].target);
    }
  }

  /** No two nodes of the tree share a position. */
  lemma TreePositionsDistinct(traces: seq<Trace>, order: seq<string>, n: string, m: string)
    requires EnumeratesRemaining(traces, order)
    requires n != m
    ensures var p := TreePositions(Classify(traces, order));
            n in p && m in p ==> p[n] != p[m]
  {
    ClassificationPartition(traces, order);
    ColumnPositionsDistinct(Classify(traces, order), n, m);
  }

  /** Within three disjoint columns, distinct nodes get distinct tree positions. */
  lemma ColumnPositionsDistinct(c: Columns, n: string, m: string)
    requires Disjoint(c) && n != m
    ensures var p := TreePositions(c);
            n in p && m in p ==> p[n] != p[m]
  {
    var p := TreePositions(c);
    TreePositionOf(c, n);
    TreePositionOf(c, m);
    if n in p && m in p {
      if n in c.drivers && m in c.drivers {
        assert IndexOf(c.drivers, n) != IndexOf(c.drivers, m);
      } else if n in c.levers && m in c.levers {
        assert IndexOf(c.levers, n) != IndexOf(c.levers, m);
      } else if n in c.outcomes && m in c.outcomes {
        assert IndexOf(c.outcomes, n) != IndexOf(c.outcomes, m);
      }
    }
  }
}
