/** The simulation engine (backend/core/simulation_engine.py): the city
    state is an N x 6 feature matrix that a graph neural network advances
    one step at a time, optionally after a policy has rescaled some of its
    columns; every step appends the city-wide metrics to a history log. */
module Engine {
  import opened Schema
  import Gen = CityGenerator
  import G = Graph
  import opened PySeq

  // ---------------------------------------------------------------------
  // From the generated city to the state tensor

  /** The generated nodes have distinct ids 0..N-1, none of which is a
      feature called `node_type`, and every one carries all six features. */
  lemma GeneratedNodes(c: Gen.Counts, rng: Gen.RandomSource)
    requires Gen.Generate(c, rng).Success?
    ensures var nodes := Gen.Generate(c, rng).value.nodes;
      && G.NoTypeClash(nodes)
      && (forall i :: 0 <= i < |nodes| ==> nodes[i].id == i && nodes[i].nodeType in NodeTypeMap)
      && (forall i, j :: 0 <= i < |nodes| && 0 <= j < NumFeatures ==> FeatureKeys[j] in nodes[i].features)
  {
    Gen.NodeList(c, rng);
    var l := Gen.LayoutOf(c);
    var nodes := Gen.Generate(c, rng).value.nodes;
    forall i | 0 <= i < |nodes|
      ensures "node_type" !in nodes[i].features
      ensures forall j :: 0 <= j < NumFeatures ==> FeatureKeys[j] in nodes[i].features
    {
      assert nodes[i] == Gen.NodeAt(l, rng, i);
    }
  }

  /** A generated city always converts: the feature matrix has one row per
      node holding that node's six features in FEATURE_KEYS order, and the
      edge index has one column per generated edge, each edge once. */
  lemma GeneratedCityConverts(c: Gen.Counts, rng: Gen.RandomSource)
    requires Gen.Generate(c, rng).Success?
    ensures var city := Gen.Generate(c, rng).value;
      var g := G.Build(city.nodes, city.edges);
      && G.NoTypeClash(city.nodes)
      && G.Wf(g)
      && G.Convert(g).Success?
      && var d := G.Convert(g).value;
      && |d.x| == |city.nodes| > 0 && IsFeatureMatrix(d.x)
      && (forall i, j :: 0 <= i < |city.nodes| && 0 <= j < NumFeatures ==>
            FeatureKeys[j] in city.nodes[i].features && d.x[i][j] == city.nodes[i].features[FeatureKeys[j]])
      && |d.edgeIndex| == |city.edges|
      && G.Distinct(d.edgeIndex)
      && (forall k :: 0 <= k < |d.edgeIndex| ==>
            exists e :: 0 <= e < |city.edges| && d.edgeIndex[k] == (city.edges[e].source, city.edges[e].target))
  {
    var city := Gen.Generate(c, rng).value;
    var l := Gen.LayoutOf(c);
    GeneratedNodes(c, rng);
    Gen.NodeList(c, rng);
    Gen.EdgePattern(c, rng);
    forall k | 0 <= k < |city.edges| ensures G.EdgeConverts(city.edges[k].attrs) {
      assert Gen.EdgeOk(l, city.edges[k]);
    }
    assert G.RecordsOk(city.nodes, city.edges);
    G.BuiltRows(city.nodes, city.edges);
    G.BuiltEdges(city.nodes, city.edges);
  }

  // ---------------------------------------------------------------------
  // Policy interventions

  /** A policy: named levers and their levels. */
  type Policy = map<string, real>

  const CarbonTax := "carbon_tax"
  const TransportSubsidy := "public_transport_subsidy"
  const WaterPrice := "water_price_factor"

  /** The levers that divide a column must not be zero. */
  predicate PolicyDefined(policy: Policy) {
    && (CarbonTax in policy ==> policy[CarbonTax] != 0.0)
    && (WaterPrice in policy ==> policy[WaterPrice] != 0.0)
  }

  /** `x[:, j] = x[:, j] * f`: column j scaled, the others kept. */
  function ScaleColumn(x: Matrix, j: nat, f: real): (r: Matrix)
    requires IsFeatureMatrix(x) && j < NumFeatures
    ensures |r| == |x| && IsFeatureMatrix(r)
    ensures forall i, k :: 0 <= i < |x| && 0 <= k < NumFeatures && k != j ==> r[i][k] == x[i][k]
    ensures forall i :: 0 <= i < |x| ==> r[i][j] == x[i][j] * f
  {
    seq(|x|, i requires 0 <= i < |x| => x[i][j := x[i][j] * f])
  }

  /** `x[:, j] = x[:, j] / d`: column j divided, the others kept. */
  function DivideColumn(x: Matrix, j: nat, d: real): (r: Matrix)
    requires IsFeatureMatrix(x) && j < NumFeatures && d != 0.0
    ensures |r| == |x| && IsFeatureMatrix(r)
    ensures forall i, k :: 0 <= i < |x| && 0 <= k < NumFeatures && k != j ==> r[i][k] == x[i][k]
    ensures forall i :: 0 <= i < |x| ==> r[i][j] == x[i][j] / d
  {
    seq(|x|, i requires 0 <= i < |x| => x[i][j := x[i][j] / d])
  }

  /** The carbon tax: emissions divided by the tax, stress raised by a
      tenth of the tax's excess over 1. */
  function TaxStage(x: Matrix, policy: Policy): (r: Matrix)
    requires IsFeatureMatrix(x) && PolicyDefined(policy)
    ensures |r| == |x| && IsFeatureMatrix(r)
    ensures forall i, k :: 0 <= i < |x| && 0 <= k < NumFeatures && k != Emissions && k != Stress ==> r[i][k] == x[i][k]
    ensures forall i :: 0 <= i < |x| ==>
      && r[i][Emissions] == (if CarbonTax in policy then x[i][Emissions] / policy[CarbonTax] else x[i][Emissions])
      && r[i][Stress] == (if CarbonTax in policy then x[i][Stress] * (1.0 + (policy[CarbonTax] - 1.0) * 0.1) else x[i][Stress])
  {
    if CarbonTax in policy then
      var tax := policy[CarbonTax];
      ScaleColumn(DivideColumn(x, Emissions, tax), Stress, 1.0 + (tax - 1.0) * 0.1)
    else x
  }

  /** The transport subsidy: energy cut by a fifth of the subsidy,
      vulnerability by a tenth. */
  function SubsidyStage(x: Matrix, policy: Policy): (r: Matrix)
    requires IsFeatureMatrix(x)
    ensures |r| == |x| && IsFeatureMatrix(r)
    ensures forall i, k :: 0 <= i < |x| && 0 <= k < NumFeatures && k != Energy && k != Vulnerability ==> r[i][k] == x[i][k]
    ensures forall i :: 0 <= i < |x| ==>
      && r[i][Energy] == (if TransportSubsidy in policy then x[i][Energy] * (1.0 - policy[TransportSubsidy] * 0.2) else x[i][Energy])
      && r[i][Vulnerability] ==
           (if TransportSubsidy in policy then x[i][Vulnerability] * (1.0 - policy[TransportSubsidy] * 0.1) else x[i][Vulnerability])
  {
    if TransportSubsidy in policy then
      var subsidy := policy[TransportSubsidy];
      ScaleColumn(ScaleColumn(x, Energy, 1.0 - subsidy * 0.2), Vulnerability, 1.0 - subsidy * 0.1)
    else x
  }

  /** Water pricing: consumption divided by the price factor. */
  function PriceStage(x: Matrix, policy: Policy): (r: Matrix)
    requires IsFeatureMatrix(x) && PolicyDefined(policy)
    ensures |r| == |x| && IsFeatureMatrix(r)
    ensures forall i, k :: 0 <= i < |x| && 0 <= k < NumFeatures && k != Water ==> r[i][k] == x[i][k]
    ensures forall i :: 0 <= i < |x| ==>
      r[i][Water] == (if WaterPrice in policy then x[i][Water] / policy[WaterPrice] else x[i][Water])
  {
    if WaterPrice in policy then DivideColumn(x, Water, policy[WaterPrice]) else x
  }

  /** `_apply_policy_modifiers`: an empty policy returns the state itself;
      otherwise a copy is rescaled lever by lever. */
  function ApplyPolicy(x: Matrix, policy: Policy): (r: Matrix)
    requires IsFeatureMatrix(x) && PolicyDefined(policy)
    ensures |r| == |x| && IsFeatureMatrix(r)
    ensures forall i :: 0 <= i < |x| ==> r[i][Income] == x[i][Income]
  {
    if policy == map[] then x
    else PriceStage(SubsidyStage(TaxStage(x, policy), policy), policy)
  }

  /** Each column changes only through its own lever: emissions and stress
      through the carbon tax, energy and vulnerability through the transport
      subsidy, water through the price factor, and income never. */
  lemma PolicyEffect(x: Matrix, policy: Policy)
    requires IsFeatureMatrix(x) && PolicyDefined(policy)
    ensures |ApplyPolicy(x, policy)| == |x| && IsFeatureMatrix(ApplyPolicy(x, policy))
    ensures forall i :: 0 <= i < |x| ==>
      var r, row := ApplyPolicy(x, policy)[i], x[i];
      && r[Income] == row[Income]
      && r[Emissions] == (if CarbonTax in policy then row[Emissions] / policy[CarbonTax] else row[Emissions])
      && r[Stress] == (if CarbonTax in policy then row[Stress] * (1.0 + (policy[CarbonTax] - 1.0) * 0.1) else row[Stress])
      && r[Energy] == (if TransportSubsidy in policy then row[Energy] * (1.0 - policy[TransportSubsidy] * 0.2) else row[Energy])
      && r[Vulnerability] ==
           (if TransportSubsidy in policy then row[Vulnerability] * (1.0 - policy[TransportSubsidy] * 0.1) else row[Vulnerability])
      && r[Water] == (if WaterPrice in policy then row[Water] / policy[WaterPrice] else row[Water])
  {
    if policy != map[] {
      var t := TaxStage(x, policy);
      var u := SubsidyStage(t, policy);
      var r := PriceStage(u, policy);
      forall i | 0 <= i < |x|
        ensures r[i][Income] == x[i][Income]
      {
        assert u[i][Income] == t[i][Income];
      }
    }
  }

  /** A policy that names none of the three levers, the empty one
      included, leaves the state exactly as it was. */
  lemma UnknownLeversIgnored(x: Matrix, policy: Policy)
    requires IsFeatureMatrix(x) && PolicyDefined(policy)
    requires CarbonTax !in policy && TransportSubsidy !in policy && WaterPrice !in policy
    ensures ApplyPolicy(x, policy) == x
  {
  }

  /** A step under a policy that names none of the levers is the same
      step as under no policy at all. */
  lemma IgnoredPolicyStep(gnn: Gnn, edgeIndex: seq<(nat, nat)>, x: Matrix, policy: Policy)
    requires GnnShape(gnn) && IsFeatureMatrix(x) && PolicyDefined(policy)
    requires CarbonTax !in policy && TransportSubsidy !in policy && WaterPrice !in policy
    ensures Transition(gnn, edgeIndex, x, policy) == Transition(gnn, edgeIndex, x, map[])
  {
    UnknownLeversIgnored(x, policy);
  }

  // ---------------------------------------------------------------------
  // City-wide metrics

  /** One history record. */
  datatype Metrics = Metrics(
    timestep: int,
    totalWaterConsumption: real,
    totalEnergyConsumption: real,
    averageIncome: real,
    totalEmissions: real,
    averageInfrastructureStress: real,
    averageSocialVulnerability: real,
    compositeSdgScore: real)

  /** The sum of column j over the first n rows. */
  function ColumnSum(x: Matrix, j: nat, n: nat): real
    requires IsFeatureMatrix(x) && j < NumFeatures && n <= |x|
  {
    if n == 0 then 0.0 else ColumnSum(x, j, n - 1) + x[n - 1][j]
  }

  /** `x[:, j].sum()`. */
  function Total(x: Matrix, j: nat): real
    requires IsFeatureMatrix(x) && j < NumFeatures
  {
    ColumnSum(x, j, |x|)
  }

  /** `x[:, j].mean()`. */
  function Mean(x: Matrix, j: nat): real
    requires IsFeatureMatrix(x) && j < NumFeatures && |x| > 0
  {
    Total(x, j) / (|x| as real)
  }

  /** `max(0, v)`. */
  function Floor0(v: real): real {
    if 0.0 >= v then 0.0 else v
  }

  /** The climate sub-score: 100 less one point per 100 units of emissions. */
  function ClimateScore(totalEmissions: real): real {
    Floor0(100.0 - (totalEmissions / 10000.0) * 100.0)
  }

  /** The inequality and infrastructure sub-scores: 100 less the average
      (a fraction) in percent. */
  function ShareScore(average: real): real {
    Floor0(100.0 - average * 100.0)
  }

  /** `_record_state`'s aggregates of the state x at timestep t. */
  function MetricsOf(t: int, x: Matrix): (m: Metrics)
    requires IsFeatureMatrix(x) && |x| > 0
    ensures m.timestep == t
    ensures 0.0 <= m.compositeSdgScore
  {
    var emissions, stress, vulnerability := Total(x, Emissions), Mean(x, Stress), Mean(x, Vulnerability);
    Metrics(t, Total(x, Water), Total(x, Energy), Mean(x, Income), emissions, stress, vulnerability,
      (ClimateScore(emissions) + ShareScore(vulnerability) + ShareScore(stress)) / 3.0)
  }

  /** A column of non-negative entries sums to a non-negative total. */
  lemma {:induction false} ColumnSumNonNegative(x: Matrix, j: nat, n: nat)
    requires IsFeatureMatrix(x) && j < NumFeatures && n <= |x| && NonNegative(x)
    ensures ColumnSum(x, j, n) >= 0.0
  {
    if n > 0 {
      ColumnSumNonNegative(x, j, n - 1);
    }
  }

  /** Every sub-score is at least 0 and the composite is their mean; on a
      state with no negative entry every score is also at most 100 and
      the totals and averages are non-negative. */
  lemma ScoresBounded(t: int, x: Matrix)
    requires IsFeatureMatrix(x) && |x| > 0
    ensures var m := MetricsOf(t, x);
      var climate, inequality, infrastructure :=
        ClimateScore(m.totalEmissions), ShareScore(m.averageSocialVulnerability), ShareScore(m.averageInfrastructureStress);
      && m.timestep == t
      && climate >= 0.0 && inequality >= 0.0 && infrastructure >= 0.0
      && m.compositeSdgScore == (climate + inequality + infrastructure) / 3.0
      && m.compositeSdgScore >= 0.0
      && (NonNegative(x) ==>
            && climate <= 100.0 && inequality <= 100.0 && infrastructure <= 100.0
            && m.compositeSdgScore <= 100.0
            && m.totalWaterConsumption >= 0.0 && m.totalEnergyConsumption >= 0.0
            && m.totalEmissions >= 0.0 && m.averageIncome >= 0.0)
  {
    if NonNegative(x) {
      ColumnSumNonNegative(x, Water, |x|);
      ColumnSumNonNegative(x, Energy, |x|);
      ColumnSumNonNegative(x, Income, |x|);
      ColumnSumNonNegative(x, Emissions, |x|);
      ColumnSumNonNegative(x, Stress, |x|);
      ColumnSumNonNegative(x, Vulnerability, |x|);
    }
  }

  // ---------------------------------------------------------------------
  // The transition

  /** The network, as a function of the state and the edge index. */
  type Gnn = (Matrix, seq<(nat, nat)>) -> Matrix

  /** What the network promises: an N x 6 state comes back N x 6 with no
      negative entry (its last operation is a ReLU). */
  ghost predicate GnnShape(gnn: Gnn) {
    forall x, edgeIndex :: IsFeatureMatrix(x) ==>
      |gnn(x, edgeIndex)| == |x| && IsFeatureMatrix(gnn(x, edgeIndex)) && NonNegative(gnn(x, edgeIndex))
  }

  /** One step: the policy is applied, then the network runs. */
  function Transition(gnn: Gnn, edgeIndex: seq<(nat, nat)>, x: Matrix, policy: Policy): (r: Matrix)
    requires GnnShape(gnn) && IsFeatureMatrix(x) && PolicyDefined(policy)
    ensures |r| == |x| && IsFeatureMatrix(r) && NonNegative(r)
  {
    PolicyEffect(x, policy);
    gnn(ApplyPolicy(x, policy), edgeIndex)
  }

  /** The state after n steps under the same policy. */
  function Evolve(gnn: Gnn, edgeIndex: seq<(nat, nat)>, x: Matrix, policy: Policy, n: nat): (r: Matrix)
    requires GnnShape(gnn) && IsFeatureMatrix(x) && PolicyDefined(policy)
    ensures |r| == |x| && IsFeatureMatrix(r)
    ensures n > 0 ==> NonNegative(r)
  {
    if n == 0 then x else Transition(gnn, edgeIndex, Evolve(gnn, edgeIndex, x, policy, n - 1), policy)
  }

  /** Whatever the policy, every state after the first step has no
      negative entry, so every score recorded from then on lies in
      [0, 100]. */
  lemma StepScoresBounded(gnn: Gnn, edgeIndex: seq<(nat, nat)>, x: Matrix, policy: Policy, n: nat, t: int)
    requires GnnShape(gnn) && IsFeatureMatrix(x) && |x| > 0 && PolicyDefined(policy) && n > 0
    ensures 0.0 <= MetricsOf(t, Evolve(gnn, edgeIndex, x, policy, n)).compositeSdgScore <= 100.0
  {
    ScoresBounded(t, Evolve(gnn, edgeIndex, x, policy, n));
  }

  /** Counts with every group that a choice draws from supplied always
      generate a city whose graph converts to a non-empty N x 6 state. */
  lemma SuppliedCityConverts(c: Gen.Counts, rng: Gen.RandomSource)
    requires Gen.Supplied(c)
    ensures var city := Gen.Generate(c, rng);
      && city.Success?
      && G.NoTypeClash(city.value.nodes)
      && G.Wf(G.Build(city.value.nodes, city.value.edges))
      && var d := G.Convert(G.Build(city.value.nodes, city.value.edges));
      && d.Success? && |d.value.x| > 0 && IsFeatureMatrix(d.value.x)
  {
    Gen.GenerateSucceeds(c, rng);
    GeneratedCityConverts(c, rng);
  }

  /** The engine's graph is the default city generated from `rng`, built,
      and its state and edge index are that graph's conversion. */
  ghost predicate StartsFrom(rng: Gen.RandomSource, world: G.DiGraph, x: Matrix, edgeIndex: seq<(nat, nat)>) {
    var city := Gen.Generate(Gen.DefaultCounts, rng);
    && city.Success?
    && world == G.Build(city.value.nodes, city.value.edges)
    && G.Wf(world)
    && G.Convert(world).Success?
    && x == G.Convert(world).value.x
    && edgeIndex == G.Convert(world).value.edgeIndex
  }

  /** The world the engine starts from: the default city generated from
      `rng`, its graph built and converted to tensors. */
  method InitialWorld(rng: Gen.RandomSource) returns (world: G.DiGraph, d: G.PygData)
    ensures StartsFrom(rng, world, d.x, d.edgeIndex)
    ensures |d.x| > 0 && IsFeatureMatrix(d.x)
  {
    Gen.DefaultsSupplied();
    SuppliedCityConverts(Gen.DefaultCounts, rng);
    var generated := Gen.GenerateSyntheticCityData(Gen.DefaultCounts, rng);
    var city := generated.value;
    var builder := new G.GraphBuilder();
    world := builder.BuildFromSyntheticData(city.nodes, city.edges);
    var converted := builder.ConvertToPygData();
    d := converted.value;
  }

  /** The records of an n-step projection from state x at timestep t, one
      per step. */
  function Trajectory(gnn: Gnn, edgeIndex: seq<(nat, nat)>, x: Matrix, policy: Policy, t: int, n: nat): (r: seq<Metrics>)
    requires GnnShape(gnn) && IsFeatureMatrix(x) && |x| > 0 && PolicyDefined(policy)
    ensures |r| == n
  {
    if n == 0 then []
    else Trajectory(gnn, edgeIndex, x, policy, t, n - 1) + [MetricsOf(t + n, Evolve(gnn, edgeIndex, x, policy, n))]
  }

  /** The k-th record of a projection is the metrics of timestep t + k + 1,
      taken of the state after k + 1 steps. */
  lemma {:induction false} TrajectoryRecords(gnn: Gnn, edgeIndex: seq<(nat, nat)>, x: Matrix, policy: Policy, t: int, n: nat)
    requires GnnShape(gnn) && IsFeatureMatrix(x) && |x| > 0 && PolicyDefined(policy)
    ensures forall k :: 0 <= k < n ==>
      Trajectory(gnn, edgeIndex, x, policy, t, n)[k] == MetricsOf(t + k + 1, Evolve(gnn, edgeIndex, x, policy, k + 1))
  {
    if n > 0 {
      TrajectoryRecords(gnn, edgeIndex, x, policy, t, n - 1);
      var r := Trajectory(gnn, edgeIndex, x, policy, t, n);
      var p := Trajectory(gnn, edgeIndex, x, policy, t, n - 1);
      assert r == p + [MetricsOf(t + n, Evolve(gnn, edgeIndex, x, policy, n))];
      forall k | 0 <= k < n - 1
        ensures r[k] == MetricsOf(t + k + 1, Evolve(gnn, edgeIndex, x, policy, k + 1))
      {
        assert r[k] == p[k];
      }
    }
  }

  /** One more step of a projection appends the metrics of the state the
      step reaches. */
  lemma TrajectorySnoc(gnn: Gnn, edgeIndex: seq<(nat, nat)>, x: Matrix, policy: Policy, t: int, n: nat, prev: Matrix)
    requires GnnShape(gnn) && IsFeatureMatrix(x) && |x| > 0 && PolicyDefined(policy)
    requires prev == Evolve(gnn, edgeIndex, x, policy, n)
    ensures Transition(gnn, edgeIndex, prev, policy) == Evolve(gnn, edgeIndex, x, policy, n + 1)
    ensures Trajectory(gnn, edgeIndex, x, policy, t, n + 1) ==
      Trajectory(gnn, edgeIndex, x, policy, t, n) + [MetricsOf(t + n + 1, Transition(gnn, edgeIndex, prev, policy))]
  {
  }

  /** A projection's records carry the timesteps t + 1, t + 2, ... in
      order, and every composite score it records lies in [0, 100]. */
  lemma TrajectoryScores(gnn: Gnn, edgeIndex: seq<(nat, nat)>, x: Matrix, policy: Policy, t: int, n: nat)
    requires GnnShape(gnn) && IsFeatureMatrix(x) && |x| > 0 && PolicyDefined(policy)
    ensures forall k :: 0 <= k < n ==> Trajectory(gnn, edgeIndex, x, policy, t, n)[k].timestep == t + k + 1
    ensures forall k :: 0 <= k < n ==> 0.0 <= Trajectory(gnn, edgeIndex, x, policy, t, n)[k].compositeSdgScore <= 100.0
  {
    TrajectoryRecords(gnn, edgeIndex, x, policy, t, n);
    forall k | 0 <= k < n
      ensures Trajectory(gnn, edgeIndex, x, policy, t, n)[k].timestep == t + k + 1
      ensures 0.0 <= Trajectory(gnn, edgeIndex, x, policy, t, n)[k].compositeSdgScore <= 100.0
    {
      StepScoresBounded(gnn, edgeIndex, x, policy, k + 1, t + k + 1);
    }
  }

  /** Metrics logged for timesteps 0 .. n-1, in order. */
  ghost predicate Lockstep(history: seq<Metrics>, n: int) {
    && |history| == n
    && forall i :: 0 <= i < |history| ==> history[i].timestep == i
  }

  // ---------------------------------------------------------------------
  // The engine

  class SimulationEngine {
    /** The networkx graph kept for structural reference. */
    const data: G.DiGraph
    /** The edge index of the PyG data; no step changes it. */
    const edgeIndex: seq<(nat, nat)>
    /** The transition network, in inference mode. */
    const gnn: Gnn
    /** The state tensor `pyg_data.x`. */
    var x: Matrix
    var currentTimestep: nat
    var history: seq<Metrics>

    /** The state is N x 6 with N > 0, and the history holds exactly one
        record per timestep so far, the record of timestep i at index i. */
    ghost predicate Valid()
      reads this
    {
      && |x| > 0 && IsFeatureMatrix(x)
      && GnnShape(gnn)
      && Lockstep(history, currentTimestep + 1)
    }

    /** Generates the default city from `rng`, builds and converts its
        graph, and records the metrics of timestep 0. */
    constructor(rng: Gen.RandomSource, gnn: Gnn)
      requires GnnShape(gnn)
      ensures Valid()
      ensures StartsFrom(rng, data, x, edgeIndex)
      ensures this.gnn == gnn
      ensures currentTimestep == 0 && history == [MetricsOf(0, x)]
    {
      var world, converted := InitialWorld(rng);
      data := world;
      x := converted.x;
      edgeIndex := converted.edgeIndex;
      this.gnn := gnn;
      currentTimestep := 0;
      history := [];
      new;
      var _ := RecordState();
    }

    /** `_record_state`: appends the metrics of the current state, which
        brings the history level with the timestep again. */
    method RecordState() returns (metrics: Metrics)
      requires |x| > 0 && IsFeatureMatrix(x) && GnnShape(gnn)
      requires Lockstep(history, currentTimestep)
      modifies this
      ensures Valid()
      ensures x == old(x) && currentTimestep == old(currentTimestep)
      ensures metrics == MetricsOf(currentTimestep, x)
      ensures history == old(history) + [metrics]
    {
      metrics := MetricsOf(currentTimestep, x);
      history := history + [metrics];
    }

    /** `step(policy)`: one transition, then the new state's metrics are
        recorded; the recorded composite score lies in [0, 100]. */
    method Step(policy: Policy) returns (metrics: Metrics)
      requires Valid() && PolicyDefined(policy)
      modifies this
      ensures Valid()
      ensures currentTimestep == old(currentTimestep) + 1
      ensures x == Transition(gnn, edgeIndex, old(x), policy)
      ensures metrics == MetricsOf(currentTimestep, x)
      ensures history == old(history) + [metrics]
      ensures 0.0 <= metrics.compositeSdgScore <= 100.0
    {
      currentTimestep := currentTimestep + 1;
      var currentX := x;
      if policy != map[] {
        PolicyEffect(currentX, policy);
        currentX := ApplyPolicy(currentX, policy);
      }
      x := gnn(currentX, edgeIndex);
      metrics := RecordState();
      ScoresBounded(currentTimestep, x);
    }

    /** `get_node_features(node_id)`: the node's row keyed by feature
        name; Python's negative indices count from the end. */
    method GetNodeFeatures(nodeId: int) returns (r: Option<map<string, real>>)
      requires Valid()
      ensures r == G.FeaturesOf(x, nodeId)
      ensures r.Some? <==> -|x| <= nodeId < |x|
      ensures 0 <= nodeId < |x| ==>
        forall j :: 0 <= j < NumFeatures ==> FeatureKeys[j] in r.value && r.value[FeatureKeys[j]] == x[nodeId][j]
    {
      r := G.ExtractFeaturesToDict(x, nodeId);
    }

    /** `run_projection(steps, policy)`: `range(steps)` transitions, whose
        records are returned and appended to the history. */
    method RunProjection(steps: int, policy: Policy) returns (results: seq<Metrics>)
      requires Valid() && PolicyDefined(policy)
      modifies this
      ensures Valid()
      ensures |results| == Gen.Runs(steps)
      ensures currentTimestep == old(currentTimestep) + |results|
      ensures history == old(history) + results
      ensures x == Evolve(gnn, edgeIndex, old(x), policy, |results|)
      ensures results == Trajectory(gnn, edgeIndex, old(x), policy, old(currentTimestep), |results|)
    {
      ghost var x0 := x;
      ghost var t0 := currentTimestep;
      ghost var h0 := history;
      results := [];
      for i := 0 to Gen.Runs(steps)
        invariant Projected(policy, x0, t0, h0, results, i)
      {
        results := ProjectOnce(policy, x0, t0, h0, results, i);
      }
    }

    /** The engine after `i` steps of a projection that started from state
        `x0` at timestep `t0` with history `h0`. */
    ghost predicate Projected(policy: Policy, x0: Matrix, t0: int, h0: seq<Metrics>, results: seq<Metrics>, i: nat)
      reads this
    {
      && Valid() && PolicyDefined(policy) && IsFeatureMatrix(x0) && |x0| > 0
      && |results| == i
      && currentTimestep == t0 + i
      && history == h0 + results
      && x == Evolve(gnn, edgeIndex, x0, policy, i)
      && results == Trajectory(gnn, edgeIndex, x0, policy, t0, i)
    }

    /** One iteration of `run_projection`'s loop. */
    method ProjectOnce(policy: Policy, ghost x0: Matrix, ghost t0: int, ghost h0: seq<Metrics>, results: seq<Metrics>, ghost i: nat)
      returns (extended: seq<Metrics>)
      requires Projected(policy, x0, t0, h0, results, i)
      modifies this
      ensures Projected(policy, x0, t0, h0, extended, i + 1)
    {
      ghost var prev := x;
      var metrics := Step(policy);
      TrajectorySnoc(gnn, edgeIndex, x0, policy, t0, i, prev);
      extended := results + [metrics];
    }
  }
}
