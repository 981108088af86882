# E<T>WIN digital twin backend, modelled in Dafny

This project models the Python backend of the E<T>WIN "digital twin" of a
micro-city:

- **`data/data.py`** (module `DataTwin`): the planetary `SimulationState`.
  - A signal injection (`update_state`) advances the cycle counter.
  - It applies the anomaly rule (`is_anomaly` or a temperature above 38).
    On an anomaly it raises a "climate_anomaly" alert and runs the
    emergency simulation.
  - It moves the reservoir level, clamped to [0, 100], and sets the water
    status.
  - It compounds GDP growth, recomputes the stability and SDG composites,
    and logs one timeline event.
  - The alert log is capped at 20 and the timeline at 50. Both are
    newest-first.
  - The GET views covered are `get_timeline`, `get_forecast` and
    `get_water`.
- **`backend/core/data_generator.py`** (module `CityGenerator`): the
  synthetic city.
  - Node ids are handed out contiguously, in the fixed type order:
    reservoirs, hospitals, hubs, clusters, industries, households.
  - The five wiring loops append water pipelines, roads, grid and trade
    links, and household employment links.
  - Every numpy draw and every `random.choice` is read from a
    `RandomSource` parameter.
  - A choice from an empty group is the `IndexError` failure.
- **`backend/core/graph_builder.py`** (module `Graph`): the builder.
  - The networkx `DiGraph` is modelled as node and edge dictionaries in
    insertion order. `add_node` merges attributes, and `add_edge` creates
    missing endpoints.
  - `GraphBuilder` fills it.
  - Conversion to tensors has these parts:
    - the node-index bijection;
    - the N × 6 feature matrix in `FEATURE_KEYS` order, with 0.0 for a
      missing feature;
    - the node and edge type codes;
    - the edge weight (capacity, else volume, else 1.0).
  - `extract_features_to_dict` reads a row back.
  - `Schema` holds the shared constants.
- **`backend/core/simulation_engine.py`** (module `Engine`): the
  `SimulationEngine` class.
  - Policy levers scale or divide single columns of the state.
  - The graph network step is an opaque, shape-preserving map with a
    non-negative result.
  - Each step appends one metrics record, so the timestep and the history
    advance in lock-step.
  - A projection is `steps` such steps.
- **`backend/api/server.py`** (module `GovernanceApi`): the
  `GovernanceState` of the API.
  - `update_digital_twin` logs alerts and advances the engine one or two
    steps.
  - `get_water` is covered.
  - `get_nodes` builds per-node composites clamped to [0, 1].
  - The `run_simulation` endpoint slices the engine history.
- **Shared rules:** `TwinRules` holds the bounded push-front log, the clamp
  and the water and anomaly rules. `PySeq` holds Python slicing and
  negative indexing.

Stateful code is modelled as classes: `SimulationState`, `GraphBuilder`,
`SimulationEngine` and `GovernanceState`. A method's `modifies` clause
names what it may change. Its `ensures` give the new value of every field
it writes as a function of the old state, and lemmas about those
functions state what the source promises. Fields that nothing writes
after construction are `const`.

## Model

| member | source | states |
|---|---|---|
| Schema.SchemaShape | backend/core/graph_builder.py:7-32 | there are six distinct feature keys, water through vulnerability in that order; node type codes are below 6 and edge type codes below 4 |
| TwinRules.DefaultSignal | data/data.py:107-116 | a payload given only temperature and precipitation is not flagged as an anomaly and has aqi 42, co2 delta 0.01 and econ stress 1.0 |
| TwinRules.PushFront | data/data.py:83-84 | the new item is at index 0 and every older entry moves back one; the length grows by one below the cap and stays put at the cap |
| TwinRules.PushFrontKeepsNewest | data/data.py:83-84 | inserting at the front and trimming the last entry keeps exactly the cap-many newest entries |
| TwinRules.PushAllKeepsNewest | data/data.py:83-84 | pushing several items one after another leaves the newest-first concatenation, cut to the cap |
| TwinRules.Clamp | data/data.py:142 | `max(lo, min(hi, v))` lies in [lo, hi], equals v inside the range, and equals the nearer bound outside it |
| TwinRules.WaterStatus | data/data.py:143 | the status is warning exactly when the reservoir is below 40 |
| TwinRules.IsAnomalous | data/data.py:133 | a payload flagged `is_anomaly` is always an anomaly; an unflagged one exactly when its temperature is strictly above 38 |
| PySeq.SliceBound | data/data.py:251 | a Python slice bound, after the negative offset and clamping, lies in [0, n]; it is the bound itself inside the range |
| PySeq.Slice | data/data.py:251 | `s[lo:hi]` has length hi' - lo' (or is empty) and holds `s[lo' + i]` at i |
| PySeq.TakeFront | data/data.py:251 | `s[:limit]` is the first min(limit, len) entries for limit ≥ 0, and all but the last -limit entries for negative limits |
| PySeq.Index | backend/core/graph_builder.py:115 | Python indexing succeeds exactly for -len ≤ i < len; a negative index counts from the end |
| CityGenerator.ChooseIn | backend/core/data_generator.py:131 | a choice from a non-empty contiguous id group lies inside that group |
| CityGenerator.NodeType.Name | backend/core/data_generator.py:51-111 | every type string passed to `add_node` is a key of NODE_TYPE_MAP |
| CityGenerator.Features | backend/core/data_generator.py:111-118 | a base-feature dictionary holds all six feature keys, with the given income and vulnerability |
| CityGenerator.Clamp01 | backend/core/data_generator.py:109 | the result lies in [0, 1] and equals v when v already does |
| CityGenerator.HouseholdIncomeOf | backend/core/data_generator.py:108 | a household's income is at least 10000 whatever is drawn |
| CityGenerator.HouseholdVulnerabilityOf | backend/core/data_generator.py:109 | a household's vulnerability score lies in [0, 1] whatever is drawn |
| CityGenerator.NodesUpTo | backend/core/data_generator.py:35-45 | after k calls to `add_node` there are k nodes, and node i is the i-th one created |
| CityGenerator.NodeList | backend/core/data_generator.py:35-118 | the node count is the sum of the six counts; node i has id i and a known type; types come in creation order; node 0 is a reservoir |
| CityGenerator.NodeTable | backend/core/data_generator.py:49-118 | the leading ids are reservoirs; every household has income ≥ 10000 and vulnerability in [0, 1] |
| CityGenerator.Groups.Append | backend/core/data_generator.py:43 | appending an id changes only its own type's group, which grows by that id at the end |
| CityGenerator.GroupsUpTo | backend/core/data_generator.py:25-45 | after k nodes, each type's group lists that type's ids among the first k |
| CityGenerator.GroupsComplete | backend/core/data_generator.py:49-118 | after all nodes, each group is the contiguous id range of its type |
| CityGenerator.GenerateSucceeds | backend/core/data_generator.py:122-158 | generation succeeds whenever every group a choice needs is non-empty; it fails without a reservoir, and on households without clusters |
| CityGenerator.DefaultsSupplied | backend/core/data_generator.py:6-14 | the default counts supply every group a choice needs |
| CityGenerator.AddNode | backend/core/data_generator.py:35-45 | returns the current id and bumps the counter; appends exactly one node and adds its id only to its own type's group |
| CityGenerator.AddGroup | backend/core/data_generator.py:49-103 | a node loop leaves the node list and groups those of the first nodes up to the end of its type's id range |
| CityGenerator.AddMember | backend/core/data_generator.py:106-118 | one household iteration extends the node list and groups by exactly the next node |
| CityGenerator.GenerateNodes | backend/core/data_generator.py:47-118 | the six node loops produce the full node table, and each group is its contiguous id range |
| CityGenerator.IterationEdges | backend/core/data_generator.py:122-158 | on a run that does not fail, one iteration of a wiring loop appends one edge (pipelines, jobs) or two (roads, industry links), none for the reservoir itself; every such edge joins two valid ids without a self-loop, is a water pipeline exactly in the pipeline loop, and sits at the position its endpoints determine |
| CityGenerator.WirePipelines | backend/core/data_generator.py:122-126 | the pipeline loop appends exactly the pipeline edges from the reservoir |
| CityGenerator.WireClusterRoads | backend/core/data_generator.py:128-133 | fails exactly when clusters exist without hubs; otherwise appends the cluster road pairs |
| CityGenerator.WireHouseholdRoads | backend/core/data_generator.py:135-139 | fails exactly when households exist without clusters; otherwise appends the household road pairs |
| CityGenerator.WireIndustries | backend/core/data_generator.py:141-148 | fails exactly when industries exist without a hub or a cluster; otherwise appends the grid and trade links |
| CityGenerator.HouseholdRecord | backend/core/data_generator.py:158 | `nodes[hh_id]['features']['income_level']` is household j's drawn income |
| CityGenerator.ChooseEmployer | backend/core/data_generator.py:151-156 | an employer is found exactly when the group picked by the 70% coin is non-empty |
| CityGenerator.AddJob | backend/core/data_generator.py:151-158 | fails exactly when the chosen employer group is empty; otherwise appends household j's employment edge |
| CityGenerator.WireJobs | backend/core/data_generator.py:150-158 | fails exactly when some household's employer group is empty; otherwise appends all employment edges |
| CityGenerator.GenerateSyntheticCityData | backend/core/data_generator.py:6-160 | the generator returns the city of `Generate`: the node table and the five edge loops in order, or IndexError |
| CityGenerator.EdgeCount | backend/core/data_generator.py:122-158 | each loop appends its width times its group size; the total is (N-1) + 2C + 2H + 2I + H |
| CityGenerator.PipeEdges | backend/core/data_generator.py:123-126 | the k-th pipeline runs from node 0 to node k + 1, with capacity 100 |
| CityGenerator.AllEdges | backend/core/data_generator.py:122-158 | every edge is valid and no self-loop; it sits at the position its endpoints determine; edges are water pipelines exactly when among the first N - 1 |
| CityGenerator.EdgePattern | backend/core/data_generator.py:122-158 | the edge count; endpoints are valid ids with no self-loop; exactly the first N - 1 edges are pipelines from node 0; no (source, target) pair repeats |
| CityGenerator.EmployerType | backend/core/data_generator.py:151-156 | an employer is an industry, a hospital or a transport hub |
| CityGenerator.JobEdge | backend/core/data_generator.py:158 | the j-th employment edge runs from household j to its employer with volume equal to the household's income |
| CityGenerator.JobEdges | backend/core/data_generator.py:151-158 | each employment edge starts at a household; its volume equals that node's income_level (≥ 10000); it ends at an industry, hospital or hub |
| Graph.AddNode | backend/core/graph_builder.py:45-49 | a new node is appended to the node order; an existing node keeps its place and merges its attributes; edges are untouched |
| Graph.EnsureNode | backend/core/graph_builder.py:52 | an existing node is left alone; a missing one is added with no attributes |
| Graph.AddEdge | backend/core/graph_builder.py:52 | afterwards the edge and both of its endpoints are in the graph |
| Graph.Build | backend/core/graph_builder.py:38-54 | the graph the builder fills is well formed: nodes and edges each appear once, attributes exist for exactly those, and every edge endpoint is a node |
| Graph.BuildWf | backend/core/graph_builder.py:42-54 | the built graph is well formed; its nodes are the node ids plus every edge endpoint |
| Graph.NodeAttrsOf | backend/core/graph_builder.py:45-49 | a node's attributes are its features plus `node_type`, which holds its type string |
| Graph.AddNodesFresh | backend/core/graph_builder.py:44-49 | adding nodes with distinct ids keeps them in list order, each with exactly its own attributes |
| Graph.AddEdgesFresh | backend/core/graph_builder.py:51-52 | adding distinct edges between known nodes keeps the nodes and stores the edges in list order with their attributes |
| Graph.NodeAttrsOk | backend/core/graph_builder.py:76-80 | a generated node converts: its type is known and its row holds its six features |
| Graph.EdgeListPermutes | backend/core/graph_builder.py:88 | edge iteration, grouped by source in node order, lists each stored edge exactly once |
| Graph.NodeMapping | backend/core/graph_builder.py:66-67 | the mapping's keys are exactly the nodes, and every number it gives is below the node count |
| Graph.NodeMappingNumbers | backend/core/graph_builder.py:66-67 | the node mapping is a bijection from the nodes, in iteration order, onto 0..N-1 |
| Graph.EdgeData | backend/core/graph_builder.py:88 | one entry per iterated edge, carrying that edge's endpoints and attributes |
| Graph.EdgeIndex | backend/core/graph_builder.py:89 | one index pair per edge |
| Graph.EndpointsMapped | backend/core/graph_builder.py:89 | both endpoints of every edge have a node number |
| Graph.RowPrefixIs | backend/core/graph_builder.py:78-80 | a row fills exactly when no feature is a non-number; column j is the stored feature, or 0.0 when absent |
| Graph.NodeTableIs | backend/core/graph_builder.py:74-80 | the node loop succeeds exactly when every node converts; otherwise the error is KeyError or a non-number; entry i is the i-th node's type code and row |
| Graph.EdgeTypesAre | backend/core/graph_builder.py:90 | edge types are collected exactly when every type is known, and then match each edge's code |
| Graph.Weight | backend/core/graph_builder.py:93 | the weight is the capacity when present, else the volume when present, else 1.0; it is always a stored attribute or that default |
| Graph.WeightsAre | backend/core/graph_builder.py:93-94 | weights are collected exactly when every weight is a number, and then match each edge's weight |
| Graph.AllEdgesConvert | backend/core/graph_builder.py:88-94 | when every edge has a known type and a numeric weight, the edge loop succeeds |
| Graph.BadEdgeStops | backend/core/graph_builder.py:88-94 | one edge with an unknown type or non-numeric weight makes the edge loop fail |
| Graph.EdgesConvert | backend/core/graph_builder.py:88-94 | the edge loop succeeds exactly when every edge converts |
| Graph.Convert | backend/core/graph_builder.py:56-109 | a failure is the empty-graph error, a KeyError or a non-number; on success x and the node types have one entry per node, and the edge index, weights and edge types one per edge |
| Graph.ConvertSucceeds | backend/core/graph_builder.py:61-62 | conversion raises the empty-graph error exactly when there are no nodes; it succeeds exactly when the graph is non-empty and every node and edge converts |
| Graph.TypeCodesInRange | backend/core/graph_builder.py:7-22 | node type codes lie in 0..5 and edge type codes in 0..3 |
| Graph.EdgeColumns | backend/core/graph_builder.py:88-98 | each edge column maps back to a stored edge with matching type code and weight, and no column repeats |
| Graph.EdgeIndexIs | backend/core/graph_builder.py:88-96 | column k of the edge index numbers the endpoints of the k-th iterated edge; columns are distinct |
| Graph.ConvertContents | backend/core/graph_builder.py:56-109 | x is N × 6 with row i holding node i's features (0.0 if absent) and node_type its code; each edge appears once, with its type code and weight |
| Graph.ExtractRoundTrip | backend/core/graph_builder.py:111-116 | reading a converted node's row back gives exactly the six feature keys, with the node's stored values or 0.0 |
| Graph.RowDict | backend/core/graph_builder.py:111-116 | the dictionary of a node's row has exactly the six feature keys with the stored values, or 0.0 |
| Graph.GraphBuilder.constructor | backend/core/graph_builder.py:35-36 | a builder starts with the empty graph |
| Graph.GraphBuilder.BuildFromSyntheticData | backend/core/graph_builder.py:38-54 | the previous graph is cleared; the new graph is the build of exactly these nodes and edges and is returned |
| Graph.GraphBuilder.ConvertToPygData | backend/core/graph_builder.py:56-109 | the loops compute exactly the conversion of the current graph, or its error |
| Graph.FillRow | backend/core/graph_builder.py:78-80 | the inner feature loop fills the node's feature row |
| Graph.FillNodeTensors | backend/core/graph_builder.py:71-80 | the node loop fills the type and feature tensors of all nodes, or stops at the first error |
| Graph.CollectEdges | backend/core/graph_builder.py:84-94 | the edge loop succeeds exactly when all types are known; it then collects the index pairs, type codes and raw weights of every edge |
| Graph.WeightTensor | backend/core/graph_builder.py:97 | the weight tensor is built exactly when every weight is a number |
| Graph.ExtractFeaturesToDict | backend/core/graph_builder.py:111-116 | the loop builds the row's feature dictionary, or reports the index error for a row outside the tensor |
| Graph.BuiltGraph | backend/core/graph_builder.py:42-54 | building distinct records gives nodes in list order with their attributes and edges in list order with theirs |
| Graph.BuiltConverts | backend/core/graph_builder.py:56-109 | the graph built from well-formed generator records always converts |
| Graph.BuiltRows | backend/core/graph_builder.py:71-80 | row i of the built graph's feature matrix is record i's features, in FEATURE_KEYS order |
| Graph.BuiltEdges | backend/core/graph_builder.py:88-98 | the edge index has one distinct column per edge record, each with that record's type code and weight |
| Graph.ColumnsFromRecords | backend/core/graph_builder.py:88-94 | each edge column comes from an edge record with the same endpoints, type code and weight |
| Engine.GeneratedNodes | backend/core/simulation_engine.py:17-21 | generated nodes have ids 0..N-1 and known types, carry all six features, and never use `node_type` as a feature name |
| Engine.GeneratedCityConverts | backend/core/simulation_engine.py:17-25 | a generated city's graph converts; row i holds node i's six features; the edge index has one distinct column per generated edge |
| Engine.ScaleColumn | backend/core/simulation_engine.py:61 | scaling multiplies one column and leaves all other columns untouched |
| Engine.DivideColumn | backend/core/simulation_engine.py:59 | dividing changes one column and leaves all others untouched |
| Engine.TaxStage | backend/core/simulation_engine.py:53-61 | the carbon tax divides emissions by the tax and scales stress by 1 + (tax - 1)·0.1; nothing else changes |
| Engine.SubsidyStage | backend/core/simulation_engine.py:64-70 | the subsidy scales energy by 1 - 0.2s and vulnerability by 1 - 0.1s; nothing else changes |
| Engine.PriceStage | backend/core/simulation_engine.py:73-76 | the water price factor divides the water column; nothing else changes |
| Engine.ApplyPolicy | backend/core/simulation_engine.py:39-78 | the policy keeps the N × 6 shape and never changes any node's income |
| Engine.PolicyEffect | backend/core/simulation_engine.py:39-78 | each column changes only through its own lever, with the source's factors; income never changes; the shape is kept |
| Engine.UnknownLeversIgnored | backend/core/simulation_engine.py:47-76 | a policy naming none of the three levers, the empty policy included, leaves the state unchanged |
| Engine.IgnoredPolicyStep | backend/core/simulation_engine.py:94-100 | a step under such a policy is the policy-free step |
| Engine.MetricsOf | backend/core/simulation_engine.py:109-141 | the record carries the timestep it is taken at, and its composite SDG score is never negative |
| Engine.ColumnSumNonNegative | backend/core/simulation_engine.py:114-119 | a column sum of a non-negative state is non-negative |
| Engine.ScoresBounded | backend/core/simulation_engine.py:109-127 | the three sub-scores are ≥ 0 and the composite is their mean; on a non-negative state every score is ≤ 100 and totals and means are ≥ 0 |
| Engine.Transition | backend/core/simulation_engine.py:91-103 | one step keeps the N × 6 shape and leaves no negative entry |
| Engine.Evolve | backend/core/simulation_engine.py:147-153 | n steps keep the shape; after at least one step no entry is negative |
| Engine.StepScoresBounded | backend/core/simulation_engine.py:121-127 | after at least one step the composite SDG score lies in [0, 100] |
| Engine.SuppliedCityConverts | backend/core/simulation_engine.py:17-25 | counts that supply every group always give a non-empty N × 6 state |
| Engine.InitialWorld | backend/core/simulation_engine.py:17-25 | the engine's world is the default city, built and converted to a non-empty N × 6 state |
| Engine.Trajectory | backend/core/simulation_engine.py:147-153 | an n-step projection yields n records |
| Engine.TrajectoryRecords | backend/core/simulation_engine.py:147-153 | record k of a projection is the metrics of the state after k + 1 steps, at timestep t + k + 1 |
| Engine.TrajectoryScores | backend/core/simulation_engine.py:129-140 | every projected record carries its own timestep and a composite score in [0, 100] |
| Engine.SimulationEngine.constructor | backend/core/simulation_engine.py:8-36 | a new engine starts from the generated world at timestep 0, with exactly one record in its history |
| Engine.SimulationEngine.RecordState | backend/core/simulation_engine.py:109-141 | appends exactly the current metrics to the history and returns them; the state and timestep are unchanged |
| Engine.SimulationEngine.Step | backend/core/simulation_engine.py:81-107 | the timestep rises by 1, the state becomes the transition of the old state, and exactly one record is appended; its timestep is the new one and its score lies in [0, 100] |
| Engine.SimulationEngine.GetNodeFeatures | backend/core/simulation_engine.py:143-145 | returns the row's feature dictionary exactly for -N ≤ id < N, else the index error |
| Engine.SimulationEngine.RunProjection | backend/core/simulation_engine.py:147-153 | returns max(steps, 0) records; the timestep advances by that count; the history grows by exactly those records; they are the trajectory from the old state |
| Engine.SimulationEngine.ProjectOnce | backend/core/simulation_engine.py:150-152 | one loop iteration extends the results by the next trajectory record and keeps the engine in lock-step |
| DataTwin.ReservoirDelta | data/data.py:141 | the reservoir rises by more than 0.05 when precipitation exceeds 0.1, and otherwise falls by exactly 0.05 |
| DataTwin.Compound | data/data.py:146 | a stress factor of 1 leaves GDP growth unchanged; a factor in [0, 1) shrinks positive growth |
| DataTwin.StabilityScore | data/data.py:101 | the stability score lies in [0, 100] for every water stress and public pressure |
| DataTwin.StabilityAntitone | data/data.py:101 | more stress or pressure never raises the score; with no stress and no pressure it is 100 |
| DataTwin.SdgComposite | data/data.py:102-103 | for a reservoir level in [0, 100], CO2 between 400 and 500 ppm and confidence in [0, 1], the SDG composite lies in [0, 100] |
| DataTwin.SdgCompositeMonotone | data/data.py:102-103 | the SDG composite is monotone: up with the reservoir and confidence, down with CO2 |
| DataTwin.AlertsAfter | data/data.py:133-138 | without an anomaly the alert log is unchanged; with one it grows by two up to the cap of 20; a log within the cap stays within it |
| DataTwin.AnomalyAlerts | data/data.py:133-138 | on an anomaly, alerts[0] is "policy_triggered" (medium) and alerts[1] "climate_anomaly" (high); older alerts shift by two and the cap of 20 holds; otherwise the log is unchanged |
| DataTwin.ForecastOf | data/data.py:254-260 | two 7-entry projections; the risk probability is 0.63 exactly when an anomaly is flagged |
| DataTwin.ForecastTrend | data/data.py:257-258 | the projections start at the current values; the reservoir falls by 1.2 and CO2 rises by 0.4 per cycle, strictly |
| DataTwin.SimulationState.constructor | data/data.py:21-73 | every modelled field starts at the source's initial value; both logs are empty |
| DataTwin.SimulationState.AddAlert | data/data.py:75-84 | the new alert goes in front of the log, trimmed to the newest 20 |
| DataTwin.SimulationState.AddTimelineEvent | data/data.py:86-97 | the event, stamped with the current cycle id, goes in front of the timeline, trimmed to 50 |
| DataTwin.SimulationState.UpdateComposites | data/data.py:99-103 | the stability score lands in [0, 100] for any readings; the SDG composite is recomputed |
| DataTwin.SimulationState.RunEmergencySimulation | data/data.py:160-168 | switches to the emergency policy at moderate risk and confidence 0.82, logs "policy_triggered" in front, and returns "simulated" |
| DataTwin.SimulationState.UpdateState | data/data.py:121-157 | the cycle rises by exactly 1 and is returned; the anomaly flag is set exactly on `is_anomaly` or temperature > 38, and then the two alerts are logged and the emergency policy takes over at "moderate" risk, confidence 0.82 and its explanation, while otherwise those five policy fields are unchanged; the reservoir is clamp(old + delta) with status warning exactly below 40; GDP is compounded and the composites recomputed (stability in [0, 100]); exactly one timeline event is logged, with anomaly score 1 exactly when `is_anomaly` holds; logs stay within their caps |
| DataTwin.SimulationState.ApplySignal | data/data.py:123-143 | the cycle and readings, the anomaly rule with its alerts, the emergency policy's risk, confidence and explanation (or the old policy fields), and the clamped reservoir, all at once |
| DataTwin.SimulationState.ReadSignal | data/data.py:123-130 | a new cycle stamped now, with the payload's readings and the CO2 increment added |
| DataTwin.SimulationState.RespondToAnomaly | data/data.py:133-138 | the flag is set exactly on an anomaly, which logs the two alerts and switches to the emergency policy at "moderate" risk, confidence 0.82 and its explanation; otherwise the five policy fields are unchanged |
| DataTwin.SimulationState.CloseCycle | data/data.py:146-155 | compounds GDP, recomputes the composites, and puts one "weather_injection" event in front of the timeline (cap 50) |
| DataTwin.SimulationState.ScaleGdp | data/data.py:146 | GDP growth is compounded by the stress factor |
| DataTwin.SimulationState.UpdateWater | data/data.py:141-143 | the reservoir moves by the precipitation delta, clamped to [0, 100]; the status is warning exactly below 40 |
| DataTwin.SimulationState.GetTimeline | data/data.py:249-251 | returns the first min(limit, len) events for limit ≥ 0, with Python's meaning for negative limits |
| DataTwin.SimulationState.GetWater | data/data.py:195-204 | on a valid state the status is warning exactly below 40, and days-until-critical lies in [0, 50] |
| DataTwin.SimulationState.GetForecast | data/data.py:253-260 | the forecast of the current state: two 7-entry projections starting at the current reservoir level and CO2, and risk 0.63 exactly when an anomaly is flagged |
| GovernanceApi.PoliciesNameNoLever | backend/api/server.py:119-128 | the two policies the server passes name none of the engine's three levers |
| GovernanceApi.SyncSteps | backend/api/server.py:119-128 | the engine advances 2 steps on an anomaly and 1 otherwise |
| GovernanceApi.GovernanceState.constructor | backend/api/server.py:47-65 | the cycle is 1000, with the source's initial readings, no anomaly and no alerts |
| GovernanceApi.GovernanceState.LogAlert | backend/api/server.py:67-76 | the alert goes in front of the log, trimmed to the newest 20 |
| GovernanceApi.GovernanceState.UpdateDigitalTwin | backend/api/server.py:108-130 | the cycle rises by exactly 1 and is returned; temperature, precipitation and CO2 follow the payload; the anomaly flag is set exactly on an anomaly, which logs one "climate_anomaly" alert; the engine advances by `SyncSteps` policy-free steps: its state is that many policy-free transitions of the old one, and its history is the old history followed by exactly the projected records of those steps |
| GovernanceApi.GovernanceState.ReadSignal | backend/api/server.py:110-116 | a new cycle stamped now, with the payload's temperature and precipitation and the CO2 increment added |
| GovernanceApi.GovernanceState.RespondToAnomaly | backend/api/server.py:119-125 | the flag is set exactly on an anomaly, which logs "climate_anomaly" in front and runs one policy-free engine step, appending its projected record to the history; otherwise no step runs |
| GovernanceApi.SyncEngine | backend/api/server.py:128 | the sync runs exactly one engine step, equal to a policy-free step; the history gains exactly the metrics of the new state at the new timestep |
| GovernanceApi.GetWater | backend/api/server.py:153-158 | the status is warning exactly below 40; since nothing writes the level, it is always 85.0 with status normal |
| GovernanceApi.NodeComposite | backend/api/server.py:185 | the composite lies in [0, 1]; it is the mean of stress and vulnerability when both are non-negative and sum to at most 2 |
| GovernanceApi.GetNodes | backend/api/server.py:166-194 | one entry per state row, ids 0..n-1 in order; composite in [0, 1], with the row's emissions and vulnerability and the current timestep |
| GovernanceApi.WindowMissesLastStep | backend/api/server.py:198-200 | on a lock-step history, the slice as written starts with the pre-call record and never holds the projection's last record |
| GovernanceApi.NewRecordsAreProjection | backend/api/server.py:198-200 | the slice starting one past the pre-call timestep is exactly the records the projection appended |
| GovernanceApi.RunSimulationAsWritten | backend/api/server.py:196-201 | the engine advances max(steps, 0) steps under the policy: its state is the evolved state and its history gains exactly the projected records; the endpoint as written returns `steps` records for steps > 0, the first being the pre-call timestep's and none the final timestep's |
| GovernanceApi.RunSimulation | backend/api/server.py:196-201 | the corrected endpoint returns max(steps, 0) records; they are exactly what the projection appended, with timesteps start+1.. and the projected trajectory; the engine's timestep advances by that count and its state is the evolved state |

## Left out

- Randomness. numpy draws, `random.choice` and `random.random()` in
  `data_generator.py` are read from a `RandomSource` parameter, so seeding
  (`random.seed(42)`) and the distributions are not modelled.
- Alert ids and timestamps. `random.randint(1000, 9999)` alert ids and
  `datetime.utcnow()` timestamps are parameters (`AlertId` is restricted to
  1000..9999).
- Real numbers. Arithmetic is exact over `real`, so float32/float64
  rounding, `round(..)` in `update_composites` and the dashboard views, and
  `.item()` conversions are not modelled.
- The graph network (`backend/core/gnn_model.py`) is not part of this model.
  Its forward pass is an opaque function value whose only assumed
  properties are that it keeps the N × 6 shape and its output is
  non-negative (the final ReLU).
- `hidden_channels`, the torch device and `.eval()` are left out: they do
  not affect the modelled state.
- Engine.SimulationEngine.Step: requires every carbon tax and water price
  factor in the policy to be non-zero. In torch a zero divisor yields
  infinities, which real arithmetic cannot represent.
- Graph.GraphBuilder.BuildFromSyntheticData: the contents lemmas require
  node records whose features do not use the name `node_type` (a keyword
  clash raises `TypeError` in Python). The generator never produces one
  (`Engine.GeneratedNodes`).
- Graph.ConvertContents: for a graph with no edges, the `[2, 0]` shape that
  `torch.tensor([]).t()` gives is not distinguished. The edge columns are
  modelled as a sequence of index pairs.
- DataTwin.SimulationState.UpdateState: the heat-spike alert message takes
  the temperature's Python string form as a parameter (`tempText`), because
  float formatting is not modelled.
- GovernanceApi.GetNodes: the latitudes and longitudes drawn from
  `np.random.default_rng(42)` are parameters.
- Endpoints and plumbing. The other GET endpoints of both files
  (current core, climate, environment, economy, social, alerts, insights,
  health, history, root), `policy_chat`, FastAPI/CORS/uvicorn setup,
  pydantic validation, dotenv loading and `print` calls are plain reads or
  I/O and are not modelled.
- The server's `timeline` list is never written after construction, so it
  is not modelled beyond construction.
- The `SimulationState` class does not keep the `data.py` fields
  `climate_stress`, `climate_trend`, `co2_growth`, `industry_profit`,
  `energy_price`, `policy_spending`, `econ_stability`, `inequality_index`,
  `public_sentiment`, `social_trend` and `history`. Each is set in
  `__init__` and only read by the GET views left out above (or not at
  all), so no modelled operation touches them.

## Findings

| source | as written | input that shows it | evidently intended | confidence | as-written member | corrected member |
|---|---|---|---|---|---|---|
| backend/api/server.py:198-200 | `new_metrics = engine.history[start_step : start_step + steps]`, where the history holds one record per timestep starting at 0 | a fresh engine (timestep 0, history of one record) and `steps = 1`: the response is the timestep-0 record from construction, not the record of step 1 | return the records the projection appended, `history[start_step + 1 : start_step + 1 + steps]`, which is the list `run_projection` returns | not executed | GovernanceApi.RunSimulationAsWritten, GovernanceApi.WindowMissesLastStep | GovernanceApi.RunSimulation, GovernanceApi.NewRecordsAreProjection |
