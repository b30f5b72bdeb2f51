# Causal supply chain dashboard: a Dafny model of its decision logic

The causal supply chain dashboard is a Streamlit app over a Snowflake
warehouse. It shows how operational drivers (forecast error, lead time,
batch size) move economic levers (safety, pipeline and cycle stock). The
levers in turn move financial outcomes (free cash flow, ROCE). The
warehouse is filled by a synthetic-data generator.

This project models the pure, sequential logic underneath the UI and the
SQL:

- **Query fan-in** (`QueryExecutor`, `DashboardLoader`, `Memo`).
  - `run_queries_parallel` is a fold over the worker results, taken in
    completion order.
  - The session is an oracle from query to table, `None`, or a raised
    message.
  - The dashboard and baseline loaders sit on top of it.
  - Streamlit's 300-second `cache_data` is modelled as a TTL map.
- **Query registry** (`QueryRegistry`).
  - A name → (sql, description) map with last-write-wins registration and
    a copy-out read.
  - The nine registrations made at import are modelled.
- **Causal-graph layout** (`CausalLayout`, `CausalSvg`, `TextWrap`).
  - The driver/lever/outcome classification is shared by
    `create_causal_tree` (streamlit/streamlit_app.py) and
    `create_causal_svg` (streamlit/utils/causal_svg.py).
  - The tree's node positions.
  - The SVG card x positions, the edge filter and the selection styling.
  - `_wrap_text`'s greedy two-line word wrap.
- **Threshold classification and what-if arithmetic** (`Thresholds`,
  `RoceSensitivity`).
  - Variance colour and badge, confidence band, delta badge.
  - The ROCE sensitivity calculator, over reals.
- **Chart data preparation** (`ChartData`).
  - The Sankey node index and link lists.
  - The triangle's active corner and marker sizes.
  - The waterfall's measure and colour lists.
- **Synthetic data** (`ScenarioControl`, `Snapshot`, `PredictiveBridge`).
  - The 12-row scenario table.
  - The structure, clamps and derived identities of the performance
    snapshot and the predictive bridge.
  - Every random draw is an input.

Each Python set whose iteration order the code depends on is an explicit
parameter, together with a predicate saying it enumerates the set once.
This covers the remaining metrics of the classification and the Sankey's
`all_nodes`. Colours are the palette roles (blue, muted, orange, ...),
not their hex strings.

## Model

| member | source | states |
|---|---|---|
| QueryExecutor.ExecuteQuery | streamlit/utils/data_loader.py:15-22 | a worker yields exactly one of a table and an error; a `None` table becomes the error "Query '<name>' returned None", an exception its message |
| QueryExecutor.NoneIsReportedAsError | streamlit/utils/data_loader.py:18-19 | a `None` result is reported as an error that is non-empty and names the query |
| QueryExecutor.Completions | streamlit/utils/data_loader.py:24-27 | one worker result per submitted query, each the worker's outcome for that query |
| QueryExecutor.CompletionsFacts | streamlit/utils/data_loader.py:15-27 | each worker result is well formed and carries its query's name; it is error-free exactly when the session returned a table, and then holds that table |
| QueryExecutor.CollectResults | streamlit/utils/data_loader.py:26-31 | after collection the result keys are exactly the succeeding names, each mapped to its own table; no other key appears; results plus error lines number the queries |
| QueryExecutor.CollectErrors | streamlit/utils/data_loader.py:26-29 | every failing task contributes its "name: error" line, and every error line comes from a failing task |
| QueryExecutor.RunQueriesParallel | streamlit/utils/data_loader.py:6-36 | with fewer than one worker the pool raises its ValueError before any query runs; otherwise raises exactly when fail_fast is set and some query failed; a returned dict holds exactly the succeeding names with their tables; with no failure it has one entry per query whatever fail_fast is |
| QueryExecutor.CollectAsWrittenErrors | streamlit/utils/data_loader.py:26-29 | under the `if error:` test the error list is non-empty exactly when some worker's error is truthy |
| QueryExecutor.ErrorsIffSomeFailure | streamlit/utils/data_loader.py:26-33 | the error list is non-empty exactly when some query did not return a table |
| QueryExecutor.FailFastReportsEveryError | streamlit/utils/data_loader.py:33-34 | in fail-fast mode with at least one worker and a failure the call raises, the message starts with the header and contains every failing query's "name: error" line, not just the first |
| QueryExecutor.ResultsIndependentOfOrder | streamlit/utils/data_loader.py:24-31 | any two completion orders of the same worker results give the same dict and the same set and number of error lines |
| QueryExecutor.CollectAsWrittenResults | streamlit/utils/data_loader.py:28-31 | under the `if error:` test every completion with a falsy error (None or "") lands in the dict, with its table or None |
| QueryExecutor.RunAsWritten | streamlit/utils/data_loader.py:6-36 | the executor as written: fewer than one worker raises the pool's ValueError; otherwise it raises exactly when fail_fast is set and some query returned None or raised a non-empty message; a returned dict holds exactly the other queries, a table as itself and an empty-message exception as None |
| QueryExecutor.EmptyMessageIsSwallowed | streamlit/utils/data_loader.py:21-31 | concrete input: a query raising `Exception()` makes the as-written executor succeed with a None entry under fail_fast, while the corrected one raises |
| QueryExecutor.CollectAgreesOnNonEmptyMessages | streamlit/utils/data_loader.py:28-31 | when every raised message is non-empty, the as-written and corrected collection loops give the same error lines and the same keys with the same tables |
| QueryExecutor.AsWrittenAgreesOnNonEmptyMessages | streamlit/utils/data_loader.py:28-36 | when every raised message is non-empty, the as-written executor raises exactly when the corrected one does and returns the same keys |
| DashboardLoader.ShockFilterFor | streamlit/utils/data_loader.py:41 | the shock filter is IS NULL exactly for the selector value "None", otherwise an equality test on the selected event |
| DashboardLoader.ShockFilterText | streamlit/utils/data_loader.py:41 | the spliced filter text is "IS NULL" iff the shock is "None", else "= '<shock>'" |
| DashboardLoader.SelectionJoinsOneScenario | streamlit/utils/data_loader.py:56-60 | for every strategy and shock the selectors offer, the join condition matches exactly one row of the generated scenario table: that strategy's baseline or its shocked copy |
| DashboardLoader.DashboardQueries | streamlit/utils/data_loader.py:43-81 | the dashboard submits three queries under distinct names |
| DashboardLoader.LoadDashboardData | streamlit/utils/data_loader.py:40-83 | on the corrected executor: only the names performance, predictions and causal_traces can appear; each is present exactly when its query returned a table and then maps to it; the call never raises |
| DashboardLoader.LoadDashboardDataAsWritten | streamlit/utils/data_loader.py:40-83 | on the executor as written: each of the three names is present exactly when its query returned a table or raised an empty message, mapped to the table or to None |
| DashboardLoader.DashboardLoadersDifferOnlyOnEmptyMessages | streamlit/utils/data_loader.py:28-31 | every table of the corrected loader is in the as-written map, and every key only the as-written map has holds None |
| DashboardLoader.BaselineIsUnshockedPerformance | streamlit/utils/data_loader.py:87-100 | the baseline query always filters SHOCK_EVENT IS NULL for the given strategy: the dashboard's performance join for shock "None", with fewer columns |
| DashboardLoader.LoadBaselineData | streamlit/utils/data_loader.py:86-101 | the baseline loader passes the session's response to its single query straight back, exceptions and None included |
| DashboardLoader.LoadAllData | streamlit/streamlit_app.py:145-151 | a missing dashboard key becomes the empty table; the baseline is present only when requested and its query returned a table; only the baseline query's exception escapes |
| DashboardLoader.CachedDashboardData | streamlit/utils/data_loader.py:39-40 | the cached dashboard loader never fails; on a miss it returns and stores with the current time what the uncached loader returns; on a hit it returns the stored map |
| DashboardLoader.DashboardServedFromCache | streamlit/utils/data_loader.py:39-40 | within 300 seconds the same strategy and shock are served from the cache even if the warehouse now answers differently |
| DashboardLoader.OtherShockIsNotShared | streamlit/utils/data_loader.py:39-40 | a different shock is a different cache key and always reaches the warehouse |
| DashboardLoader.CachedBaselineData | streamlit/utils/data_loader.py:86-101 | on a miss: a table is returned and stored as Some(table), a driver None is returned and stored as None, and an exception is raised with its message and leaves the cache unchanged; on a hit the stored value is returned |
| Memo.Call | streamlit/utils/data_loader.py:39 | a memoised call runs its body exactly when no fresh entry exists for the key; a successful run stores its value with the time, and a failure stores nothing |
| Memo.OtherKeysUntouched | streamlit/utils/data_loader.py:39 | a call stores only under its own key |
| Memo.HitWithinTtl | streamlit/utils/data_loader.py:39 | a second call within the TTL returns the first value without running the body |
| Memo.ExpiredEntryIsRecomputed | streamlit/utils/data_loader.py:39 | after the TTL has passed the body runs again |
| Memo.FailureIsNotCached | streamlit/utils/data_loader.py:39 | an exception is never cached; the next call runs the body again |
| QueryRegistry.RegisterQuery | streamlit/utils/query_registry.py:6-8 | registration returns its sql unchanged, maps the name to (sql, description), and leaves every other entry unchanged |
| QueryRegistry.DescriptionDefaultsToEmpty | streamlit/utils/query_registry.py:6 | the description defaults to "" |
| QueryRegistry.GetAllQueries | streamlit/utils/query_registry.py:10-11 | the copy has the registry's keys and entries; as a value it cannot alias the registry |
| QueryRegistry.RegistrationsKeys | streamlit/utils/query_registry.py:6-8 | after a run of registrations the keys are the earlier keys plus every registered name |
| QueryRegistry.RegistrationsLastWriteWins | streamlit/utils/query_registry.py:7 | a re-registered name holds the entry of its last registration |
| QueryRegistry.RegistrationsKeepOthers | streamlit/utils/query_registry.py:7 | a name no call uses keeps its earlier entry |
| QueryRegistry.RunReturnsEachSql | streamlit/utils/query_registry.py:8 | every call of a run hands back the sql it was given |
| QueryRegistry.InitialCalls | streamlit/utils/query_registry.py:13-140 | module import makes nine registrations, in source order |
| QueryRegistry.InitialRegistryKeys | streamlit/utils/query_registry.py:13-140 | after import exactly the nine names are registered |
| QueryRegistry.InitialRegistryEntries | streamlit/utils/query_registry.py:13-140 | each name holds its own sql and description, and each exported constant equals the sql stored under its name |
| QueryRegistry.NamesDistinct | streamlit/utils/query_registry.py:13-140 | the nine registered names are pairwise distinct |
| CausalLayout.CanonicalListsNoDup | streamlit/streamlit_app.py:208-210 | no canonical column list repeats a metric |
| CausalLayout.CanonicalListsDistinct | streamlit/streamlit_app.py:208-210 | the three canonical lists share no metric |
| CausalLayout.PlaceAllAppendsByKind | streamlit/streamlit_app.py:221-227 | the loop over remaining metrics appends to each column exactly the visited metrics of its kind, in visiting order |
| CausalLayout.ClassifyShape | streamlit/streamlit_app.py:212-227 | each column is its canonical members present in the traces, then the remaining metrics of its kind in set order |
| CausalLayout.ColumnMembers | streamlit/streamlit_app.py:212-227 | a metric is in a column iff it occurs in the traces and is either in that canonical list or, being in none, has that column's kind |
| CausalLayout.ClassificationPartition | streamlit/streamlit_app.py:212-227 | the columns partition the metrics of the traces: each lands in exactly one column, nothing else does, and no column repeats a metric |
| CausalLayout.CanonicalMembersFirst | streamlit/streamlit_app.py:216-218 | the canonical members lead their column in canonical order |
| CausalLayout.ClassificationRule | streamlit/streamlit_app.py:220-227 | a canonical metric goes to its own column; any other is a driver iff only a source, an outcome iff only a target, and a lever iff both |
| CausalLayout.PlaceColumnWrites | streamlit/streamlit_app.py:235-240 | a column loop gives each of its nodes its x and reversed index as y and leaves other keys as they were |
| CausalLayout.TreePositionOf | streamlit/streamlit_app.py:232-240 | in disjoint columns a node's position is (column x, len − 1 − index) and only column members get one |
| CausalLayout.TreeLayout | streamlit/streamlit_app.py:232-240 | exactly the metrics of the traces get a position, x = 0, 1, 2 by column and y = len − 1 − i |
| CausalLayout.TreeDrawsEveryTrace | streamlit/streamlit_app.py:212-240 | both ends of every trace row have a tree position |
| CausalLayout.TreePositionsDistinct | streamlit/streamlit_app.py:232-240 | no two metrics of the tree share a position |
| CausalLayout.ColumnPositionsDistinct | streamlit/streamlit_app.py:232-240 | in three disjoint columns without repeats, distinct nodes get distinct positions |
| CausalSvg.Trunc | streamlit/utils/causal_svg.py:53 | `int()` truncates toward zero: within one below a non-negative value, within one above a negative one |
| CausalSvg.AssignXWrites | streamlit/utils/causal_svg.py:53 | the dict comprehension gives each item the truncated x of its index and keeps other keys |
| CausalSvg.XPositionsOfItems | streamlit/utils/causal_svg.py:48-53 | no items give an empty map; otherwise exactly the items get a position, each the truncated x of its index |
| CausalSvg.RawXCentred | streamlit/utils/causal_svg.py:51-53 | the cards are centred: card i and card n − 1 − i are mirror images about width / 2 |
| CausalSvg.XPositionsMonotone | streamlit/utils/causal_svg.py:51-53 | x positions never decrease with the index, before and after truncation |
| CausalSvg.XPositionsInCanvas | streamlit/utils/causal_svg.py:43-53 | on the 1000-wide canvas every card centre lies in [50, 950) |
| CausalSvg.SvgEdge | streamlit/utils/causal_svg.py:137-161 | an edge is drawn iff its source is a driver or lever and its target a lever or outcome; it carries the relationship id and glows iff selected |
| CausalSvg.EdgeGeometry | streamlit/utils/causal_svg.py:137-161 | an unselected edge runs from the source card's bottom to the target card's top, with opacity 0.35 + 0.35·abs(weight), stroke 1.5 + 2.5·abs(weight) and the arrow of its sign |
| CausalSvg.SelectionEmphasises | streamlit/utils/causal_svg.py:151-161 | selecting an edge keeps its end points, sets opacity 1.0, multiplies the stroke by 2.2 and switches to the selected arrow; selecting another id changes nothing |
| CausalSvg.SvgEdges | streamlit/utils/causal_svg.py:131-149 | the loop draws at most one edge per trace row |
| CausalSvg.SvgEdgesComplete | streamlit/utils/causal_svg.py:131-149 | every drawable trace row is drawn, and every drawn edge comes from a trace row |
| CausalSvg.ClassifiedEdgeRule | streamlit/utils/causal_svg.py:137-149 | on the classified layout a row is drawn iff its source is not an outcome and its target not a driver |
| CausalSvg.CreateCausalSvg | streamlit/utils/causal_svg.py:18-161 | empty traces give the placeholder picture; otherwise the classified columns, their positions, and exactly the edges of the row loop: every row the filter lets through is drawn, every edge comes from a row, at most one per row |
| TextWrap.WordEnd | streamlit/utils/causal_svg.py:223 | a word runs to the next whitespace character or the end of the text |
| TextWrap.Words | streamlit/utils/causal_svg.py:223 | `split()` yields non-empty words without whitespace |
| TextWrap.WordsCons | streamlit/utils/causal_svg.py:223 | splitting a word, a space and more text gives the word followed by the split of the rest |
| TextWrap.WordsOfWord | streamlit/utils/causal_svg.py:223 | a single word splits to itself |
| TextWrap.WordsOfJoin | streamlit/utils/causal_svg.py:223-234 | round trip: splitting words joined by single spaces gives back the words |
| TextWrap.JoinLength | streamlit/utils/causal_svg.py:227 | the fit test measures exactly the joined line's length: word lengths plus one space between each two |
| TextWrap.FillKeepsWords | streamlit/utils/causal_svg.py:224-234 | packing keeps every word, in order, and every line it makes is non-empty and overflows only as a single word |
| TextWrap.FillIsGreedy | streamlit/utils/causal_svg.py:226-232 | packing is greedy: no line could have taken the first word of the next one |
| TextWrap.FillStartsWith | streamlit/utils/causal_svg.py:226-234 | packing from a non-empty current line yields a first line beginning with that line's first word |
| TextWrap.FirstTwo | streamlit/utils/causal_svg.py:235 | the cut keeps a prefix of at most two lines |
| TextWrap.WrapText | streamlit/utils/causal_svg.py:220-235 | text within the limit is returned unchanged as one line; the result never has more than two lines |
| TextWrap.WrapTextLines | streamlit/utils/causal_svg.py:223-235 | long text wraps into at most two non-empty lines, a line over the limit is one word, and the lines' words are a prefix of the text's words, whole and in order |
| TextWrap.WrapTextEmptyOnlyForBlank | streamlit/utils/causal_svg.py:223-235 | long text yields no line exactly when it is all whitespace |
| Thresholds.HigherTone | streamlit/streamlit_app.py:111-117 | higher-is-better: blue iff the variance is at least +5%, muted iff in [−5%, +5%), orange iff below −5% |
| Thresholds.LowerTone | streamlit/streamlit_app.py:118-124 | lower-is-better: blue iff at most −5%, muted iff in (−5%, +5%], orange iff above +5% |
| Thresholds.VarianceColor | streamlit/streamlit_app.py:107-126 | muted for a zero target or an unknown direction; otherwise the direction's tone of the variance percentage |
| Thresholds.LowerMirrorsHigher | streamlit/streamlit_app.py:111-124 | the lower-is-better tone at v is the higher-is-better tone at −v |
| Thresholds.VarianceColorMonotone | streamlit/streamlit_app.py:107-126 | for a fixed target a larger actual never worsens the higher-is-better tone and never improves the lower-is-better one |
| Thresholds.FormatVariance | streamlit/streamlit_app.py:129-136 | no badge iff the target is zero; the arrow is up or down by the sign of actual − target, the colour is the variance colour, the figure the variance's size |
| Thresholds.BadgeArrowAgreesWithTone | streamlit/streamlit_app.py:129-136 | a blue higher-is-better badge points up and an orange one down; the other way round for lower-is-better |
| Thresholds.RangePct | streamlit/streamlit_app.py:155-158 | the range percentage is non-negative and zero for a zero value |
| Thresholds.ConfidenceBand | streamlit/streamlit_app.py:154-188 | High iff the range is under 10%, Medium iff in [10, 25), Wide otherwise, in blue, muted and orange; the bar width is 10 for a range under 5%, twice the range from 5% to 50%, and 100 above 50% |
| Thresholds.ZeroValueIsHighConfidence | streamlit/streamlit_app.py:155-168 | a zero value always reads as high confidence with the minimum bar |
| Thresholds.WiderIntervalIsNoMoreConfident | streamlit/streamlit_app.py:155-188 | for the same value a wider interval is never more confident and never has a shorter bar |
| Thresholds.RenderDeltaBadge | streamlit/streamlit_app.py:195-201 | the badge is blue iff the change is a rise (a fall when inverted), else orange; "+" iff a rise; the percentage is the change over the baseline, zero against a zero baseline |
| Thresholds.InvertFlipsTone | streamlit/streamlit_app.py:195-201 | inverting swaps the tone of any actual change, no change is orange either way, and sign and figures do not depend on invert |
| RoceSensitivity.Column | streamlit/streamlit_app.py:309-313 | a column has one entry per row, that row's field |
| RoceSensitivity.Mean | streamlit/streamlit_app.py:309 | the mean is absent (NaN) for no rows, otherwise it times the row count is the sum |
| RoceSensitivity.MeanOfConstant | streamlit/streamlit_app.py:309 | the mean of identical values is that value |
| RoceSensitivity.RoceOf | streamlit/streamlit_app.py:320 | ROCE is zero when capital is not positive, otherwise ROCE × capital = 100 × NOPAT |
| RoceSensitivity.CalculateRoceSensitivity | streamlit/streamlit_app.py:308-331 | capital freed is the safety-stock total times the cut in percent; the pipeline impact is 150000 per day of lead time; the cycle impact is half the cycle-stock total times the batch change in percent; net capital impact is current minus new capital; new ROCE is NOPAT over new capital; delta in bps is 100 × delta; current ROCE is the mean and absent only for no rows |
| RoceSensitivity.NoChangeKeepsCapital | streamlit/streamlit_app.py:315-330 | with every lever at zero the capital is unchanged and the new ROCE is NOPAT over today's capital |
| RoceSensitivity.DeeperSafetyCutRaisesRoce | streamlit/streamlit_app.py:315-320 | with positive NOPAT and safety stock and positive new capital, a deeper safety-stock cut gives a strictly higher new ROCE |
| RoceSensitivity.LongerLeadTimeLowersRoce | streamlit/streamlit_app.py:316-320 | with positive NOPAT and positive new capital, a longer lead time gives a strictly lower new ROCE |
| RoceSensitivity.LargerBatchLowersRoce | streamlit/streamlit_app.py:317-320 | with positive NOPAT and cycle stock and positive new capital, larger batches give a strictly lower new ROCE |
| ChartData.NodeIndices | streamlit/utils/visualizations.py:33-35 | the index map's keys are the nodes, and each index points back at its node |
| ChartData.NodeIndicesBijection | streamlit/utils/visualizations.py:33-35 | without duplicates the index map is a bijection onto 0..k−1: the node at position i has index i |
| ChartData.CausalSankey | streamlit/utils/visualizations.py:29-59 | the empty figure iff there are no traces; otherwise one colour per node and one link per trace row |
| ChartData.SankeyLinksFollowTraces | streamlit/utils/visualizations.py:52-56 | each link's indices are in range and name its row's source and target; its value is 10·abs(weight) ≥ 0; it is green iff the relationship is POSITIVE |
| ChartData.SankeyNodeColours | streamlit/utils/visualizations.py:41-50 | a node is cost-coloured iff a driver, blue iff a lever, service-coloured iff an outcome, border otherwise |
| ChartData.SankeyListsDisjoint | streamlit/utils/visualizations.py:37-39 | the Sankey's three lists share no metric |
| ChartData.ActiveCorner | streamlit/utils/visualizations.py:97-102 | MARGIN → cost, CASH → cash, and every other mode (GROWTH included) → service |
| ChartData.WeightOf | streamlit/utils/visualizations.py:118-120 | a corner's weight is the given one, or 0.33 when its key is missing |
| ChartData.TriangleMarkers | streamlit/utils/visualizations.py:116-141 | one marker per corner in drawing order with its value and weight; exactly the active corner has a halo |
| ChartData.TriangleMarkerSizes | streamlit/utils/visualizations.py:118-141 | exactly one corner has a halo, 15 larger than its marker; marker size is 35 + 30·w; a missing weight gives size 44.9 |
| ChartData.Measures | streamlit/utils/visualizations.py:243 | n − 1 relative measures then one total, and a single total for n = 0 |
| ChartData.BarTones | streamlit/utils/visualizations.py:245 | every bar but the last is green iff its value is positive, else red; the last is blue |
| ChartData.WaterfallImpact | streamlit/utils/visualizations.py:239-245 | labels and values are the impacts' keys and values in order |
| ChartData.WaterfallBarsAligned | streamlit/utils/visualizations.py:240-245 | for n ≥ 1 impacts measures, colours and labels have length n, the last bar is the blue total and the others follow their sign; for n = 0 the lists are one total bar |
| ScenarioControl.GenerateScenarioControl | utils/generate_synthetic_data.py:161-245 | the table has 12 rows, row k being the k-th entry of the baseline-then-shocks layout numbered from 1 |
| ScenarioControl.BlocksLayout | utils/generate_synthetic_data.py:216-243 | the loop emits four rows per baseline, row k being the (k mod 4)-th of baseline k/4's block |
| ScenarioControl.ApplyShockKeepsStrategy | utils/generate_synthetic_data.py:221-224 | a shocked copy keeps its baseline's strategy and takes the new id and shock |
| ScenarioControl.ScenarioTableLayout | utils/generate_synthetic_data.py:216-245 | ids run 1..12; each baseline has shock None and is followed by SUPPLY_DISRUPTION, PORT_STRIKE, DEMAND_SURGE copies of its strategy |
| ScenarioControl.ApplyShockDeltas | utils/generate_synthetic_data.py:222-240 | a shock adds exactly its own deltas to the baseline and leaves every other column as the baseline has it |
| ScenarioControl.ShockDeltas | utils/generate_synthetic_data.py:221-240 | every shocked row of the table is its baseline plus that shock's deltas, never the previous shock's |
| ScenarioControl.ScenarioKeysDistinct | utils/generate_synthetic_data.py:165-243 | no two rows share both strategy and shock |
| Snapshot.Clamp | utils/generate_synthetic_data.py:72 | `min(hi, max(lo, x))` lies in [lo, hi], is x inside it and the nearer bound outside |
| Snapshot.SnapshotRow | utils/generate_synthetic_data.py:31-105 | OTIF in [80, 99], margin in [20, 50], ROCE in [5, 25], MAPE ≥ 5; total inventory is the sum of the five stocks; FCF = NOPAT − ΔWC − ΔFA; EVA = NOPAT − 0.10 × capital |
| Snapshot.ModesFavourTheirObjective | utils/generate_synthetic_data.py:35-87 | on the same draws GROWTH has the best OTIF, MARGIN the best gross margin and CASH the best ROCE |
| Snapshot.Position | utils/generate_synthetic_data.py:28-30 | row 12m + 3r + c belongs to month m, region r and mode c |
| Snapshot.GeneratePerformanceSnapshot | utils/generate_synthetic_data.py:16-109 | months × 4 regions × 3 modes rows, row k being the row of its (month, region, mode) with SNAPSHOT_ID k + 1 |
| Snapshot.EachCombinationOnce | utils/generate_synthetic_data.py:25-107 | each (month, region, mode) combination has its row at position 12m + 3r + c |
| PredictiveBridge.Unique | utils/generate_synthetic_data.py:254-255 | `unique()` keeps each distinct value once, in order of first appearance |
| PredictiveBridge.RegionCombos | utils/generate_synthetic_data.py:258-259 | the inner loops visit regions × scenarios combinations for a month |
| PredictiveBridge.Combos | utils/generate_synthetic_data.py:257-259 | the triple loop visits months × regions × scenarios combinations |
| PredictiveBridge.RegionCombosMembers | utils/generate_synthetic_data.py:258-259 | the inner loops visit exactly the month's (region, scenario) pairs |
| PredictiveBridge.CombosMembers | utils/generate_synthetic_data.py:257-259 | the loop visits every (month, region, scenario) combination and nothing else |
| PredictiveBridge.BaseRowIsFirstMatch | utils/generate_synthetic_data.py:260-269 | the base row is absent iff no snapshot row matches month, region and strategy, and otherwise is the first match |
| PredictiveBridge.BridgeRowFor | utils/generate_synthetic_data.py:271-300 | a row carries its id, month, region and scenario; FCF bounds are 0.85 and 1.15 of the planned FCF, ROCE bounds 0.9 and 1.1 of the planned ROCE; XGBOOST iff the pick exceeds 0.3 |
| PredictiveBridge.Kept | utils/generate_synthetic_data.py:260-267 | only combinations with a base row are kept |
| PredictiveBridge.KeptMembers | utils/generate_synthetic_data.py:257-267 | a combination is kept iff the loop visits it and it has a base row |
| PredictiveBridge.Bridge | utils/generate_synthetic_data.py:257-302 | one row per kept combination, ids consecutive from the next id |
| PredictiveBridge.GeneratePredictiveBridge | utils/generate_synthetic_data.py:247-304 | one row per (month, region, scenario) with a base row, in loop order; row k is that combination projected from its first base row with the k-th draw; BRIDGE_ID runs 1..n |
| PredictiveBridge.BridgeFollowsKeptCombos | utils/generate_synthetic_data.py:257-302 | row k is the k-th combination with a base row, projected from its first base row with the k-th draw; skipped combinations add nothing |
| PredictiveBridge.BridgeStep | utils/generate_synthetic_data.py:266-302 | one loop step emits a row for a combination with a base row and nothing otherwise |
| PredictiveBridge.BoundsBracketPrediction | utils/generate_synthetic_data.py:276-298 | with a non-negative plan the FCF interval brackets the noisy prediction for noise within 15%, and the ROCE interval for noise within 20%; a negative FCF plan inverts the interval |
| PredictiveBridge.ShocksLowerPlannedFcf | utils/generate_synthetic_data.py:276 | for a base row with positive FCF every shock of the scenario table lowers the planned FCF below its baseline's |

## Left out

- The thread pool and `as_completed` (data_loader.py:24-26) are not modelled. Completion order is a parameter: the list of queries in the order they finish. Of `max_workers` only the pool's check is kept: below one worker the pool raises its ValueError; a positive value does not change the outcome. `None` (the pool's default size) is not a value the code passes.
- The Snowflake session and all SQL text are not modelled. The session is an oracle from query to table, `None` or a raised message. The dashboard queries are structured values (columns, strategy, shock filter), not SQL strings. Registered SQL is an opaque input.
- Streamlit widgets, `session_state`, `cache_resource` and the rendering code are framework UI state. `cache_data` is modelled only as the TTL map of `Memo`. The clock is a parameter.
- The LLM and search calls (cortex_client.py, `query_cortex_analyst`, `search_qbr_docs`, `get_cached_causal_explanation`) are foreign services.
- Plotly and SVG figure construction, HTML/CSS markup, hex colour constants, `svg_to_base64` and the `title()`-based label prettifiers are rendering details. Colours are modelled as palette roles.
- Float rounding (`round`, `:.1f`) is not modelled. Values are Dafny reals, computed exactly.
- `np.random` is an input. Every draw (and the monthly sine seasonal term) is an input indexed by row. Month dates and `relativedelta` arithmetic are not modelled: the list of months is an input.
- CSV writing, `main` and the generator's other tables (ML registry and so on) are outside the modelled core.
- Snapshot.SnapshotRow: keeps the columns the dashboard reads (OTIF, gross margin, ROCE, MAPE, the five stocks, NOPAT, capital, deltas, FCF, EVA). Fill rate, growth, lead time, OEE and the other independently drawn columns are not modelled.
- PredictiveBridge.BridgeRowFor: the noisy predictions are stated through the bounds lemma only. The safety, pipeline, lead-time, forecast-error and batch-size impact columns are carried but have no contract.
- `load_all_data`'s own `cache_data` layer (streamlit_app.py:144) is not modelled. DashboardLoader.LoadAllData calls the uncached loaders, bypassing the loaders' caches; those caches are modelled on their own by CachedDashboardData and CachedBaselineData.
- DashboardLoader.LoadDashboardData: built on the corrected executor, so a query raising an empty message is absent from its map, where the source keeps it as None. DashboardLoader.LoadDashboardDataAsWritten states the source's map.
- DashboardLoader.LoadAllData: built on the corrected loader, so an empty-message failure of a dashboard query yields the empty table. The source gets None for that frame from `data.get` (streamlit_app.py:147) and later fails with AttributeError at `df.empty` (streamlit_app.py:542). That crash is not modelled.
- The pandas groupby/melt and waterfall code at the top level of the app script (streamlit_app.py:1030-1102) is tangled with rendering.
- ChartData.WaterfallBarsAligned: for no impacts the code still builds one total measure and one blue colour with no labels. The model keeps that behaviour and states it, rather than excluding the empty input.
- TextWrap.WrapText: long text made only of whitespace wraps to no lines at all. This is stated, not excluded.

## Findings

| source | as written | input that shows it | evidently intended | confidence | as-written member | corrected member |
|---|---|---|---|---|---|---|
| streamlit/utils/data_loader.py:28 | `if error:` treats a worker result as a success whenever its error string is falsy | a query whose execution raises an exception with an empty message (`str(e) == ""`, for example `Exception()`): it is stored in the results as `None`, adds no error line, and `fail_fast` does not raise | a raised exception is a failure whatever its message (`if error is not None:`) | not executed | QueryExecutor.RunAsWritten | QueryExecutor.RunQueriesParallel |
