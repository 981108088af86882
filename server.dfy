/** The governance API of backend/api/server.py: a `GovernanceState` that
    the signal endpoint updates in place, the simulation engine it drives,
    and the dashboard views over both. The module-level `gov_state` and
    `engine` globals are passed to each endpoint as objects. */
module GovernanceApi {
  import opened TwinRules
  import opened PySeq
  import opened Schema
  import E = Engine
  import Gen = CityGenerator

  /** The policy the anomaly branch passes to the engine. */
  const StressPolicy: E.Policy := map["infrastructure_stress" := 1.2]
  /** The policy of the sync step when the temperature exceeds 32. */
  const EmissionsPolicy: E.Policy := map["emissions" := 1.05]

  /** Neither policy the endpoint sends names a lever the engine knows. */
  lemma PoliciesNameNoLever()
    ensures E.PolicyDefined(StressPolicy) && E.PolicyDefined(EmissionsPolicy)
    ensures E.CarbonTax !in StressPolicy && E.TransportSubsidy !in StressPolicy && E.WaterPrice !in StressPolicy
    ensures E.CarbonTax !in EmissionsPolicy && E.TransportSubsidy !in EmissionsPolicy && E.WaterPrice !in EmissionsPolicy
  {
    assert |E.CarbonTax| == 10 && |E.TransportSubsidy| == 24 && |E.WaterPrice| == 18;
    assert StressPolicy.Keys == {"infrastructure_stress"} && EmissionsPolicy.Keys == {"emissions"};
  }

  /** The number of engine steps one signal causes: two on an anomaly,
      one otherwise. */
  function SyncSteps(payload: SignalUpdate): (n: nat)
    ensures n == 2 <==> IsAnomalous(payload)
    ensures n == 1 <==> !IsAnomalous(payload)
  {
    if IsAnomalous(payload) then 2 else 1
  }

  /** The body of `get_water`. */
  datatype WaterReport = WaterReport(reservoirLevelPercent: real, status: WaterState)

  class GovernanceState {
    var cycleId: int
    var lastUpdate: string
    var tempCurrent: real
    var precipCurrent: real
    var co2Ppm: real
    var anomalyDetected: bool
    var alerts: seq<Alert>
    // Fields that nothing in the API writes after construction.
    const tempAvg: real := 30.5
    const reservoirPercent: real := 85.0
    const sdgComposite: real := 72.0
    const stabilityScore: real := 90.0
    const activePolicy: string := "Base Sustainable Framework"
    const lastExplanation: string := "System initialized in stable state."

    /** The alert log stays within its cap. */
    ghost predicate Valid()
      reads this
    {
      |alerts| <= AlertCap
    }

    /** The initial governance state, stamped `now`. */
    constructor(now: string)
      ensures Valid()
      ensures cycleId == 1000 && lastUpdate == now
      ensures tempCurrent == 31.0 && precipCurrent == 0.5 && co2Ppm == 418.0
      ensures !anomalyDetected && alerts == []
    {
      cycleId := 1000;
      lastUpdate := now;
      tempCurrent := 31.0;
      precipCurrent := 0.5;
      co2Ppm := 418.0;
      anomalyDetected := false;
      alerts := [];
    }

    /** `log_alert`: the new alert goes in front and the oldest drops out
        once there are more than 20; the other alerts only move back. */
    method LogAlert(id: AlertId, kind: string, message: string, severity: string, now: string)
      modifies this`alerts
      ensures alerts == PushFront(old(alerts), Alert(id, kind, severity, message, now), AlertCap)
    {
      var alert := Alert(id, kind, severity, message, now);
      alerts := [alert] + alerts;
      if |alerts| > AlertCap {
        alerts := alerts[..|alerts| - 1];
      }
    }

    /** `update_digital_twin`: one signal injection. The engine takes one
        extra step on an anomaly and then one sync step; since neither
        policy it passes names a lever, the engine ends exactly where the
        same number of policy-free steps would take it. `tempText` is the
        payload temperature as Python prints it and `alertId` the random id
        of the anomaly alert. Returns the new cycle id. */
    method UpdateDigitalTwin(payload: SignalUpdate, tempText: string, alertId: AlertId, now: string,
                             engine: E.SimulationEngine)
      returns (cycle: int)
      requires Valid() && engine.Valid()
      modifies this, engine
      ensures Valid() && engine.Valid()
      ensures cycleId == old(cycleId) + 1 && cycle == cycleId
      ensures lastUpdate == now && tempCurrent == payload.temp && precipCurrent == payload.precip
      ensures co2Ppm == old(co2Ppm) + payload.co2Delta
      ensures anomalyDetected <==> IsAnomalous(payload)
      ensures alerts == if IsAnomalous(payload)
        then PushFront(old(alerts), Alert(alertId, ClimateAnomaly, "high", HeatSpikeMessage(tempText), now), AlertCap)
        else old(alerts)
      ensures engine.currentTimestep == old(engine.currentTimestep) + SyncSteps(payload)
      ensures engine.history == old(engine.history) +
        E.Trajectory(engine.gnn, engine.edgeIndex, old(engine.x), map[], old(engine.currentTimestep), SyncSteps(payload))
      ensures engine.x == E.Evolve(engine.gnn, engine.edgeIndex, old(engine.x), map[], SyncSteps(payload))
    {
      ghost var x0, t0 := engine.x, engine.currentTimestep;
      ReadSignal(payload, now);
      RespondToAnomaly(payload, tempText, alertId, now, engine);
      E.TrajectorySnoc(engine.gnn, engine.edgeIndex, x0, map[], t0, SyncSteps(payload) - 1, engine.x);
      SyncEngine(payload, engine);
      cycle := cycleId;
    }

    /** The readings of `update_digital_twin`: a new cycle stamped `now`,
        the payload's temperature and precipitation, its CO2 increment. */
    method ReadSignal(payload: SignalUpdate, now: string)
      modifies this`cycleId, this`lastUpdate, this`tempCurrent, this`precipCurrent, this`co2Ppm
      ensures cycleId == old(cycleId) + 1 && lastUpdate == now
      ensures tempCurrent == payload.temp && precipCurrent == payload.precip
      ensures co2Ppm == old(co2Ppm) + payload.co2Delta
    {
      cycleId := cycleId + 1;
      lastUpdate := now;
      tempCurrent := payload.temp;
      precipCurrent := payload.precip;
      co2Ppm := co2Ppm + payload.co2Delta;
    }

    /** The anomaly rule of `update_digital_twin`: on an anomaly, one
        "climate_anomaly" alert and one engine step under the stress
        policy, which the engine takes as a policy-free step. */
    method RespondToAnomaly(payload: SignalUpdate, tempText: string, alertId: AlertId, now: string,
                            engine: E.SimulationEngine)
      requires |alerts| <= AlertCap && engine.Valid()
      modifies this`anomalyDetected, this`alerts, engine
      ensures |alerts| <= AlertCap && engine.Valid()
      ensures anomalyDetected <==> IsAnomalous(payload)
      ensures alerts == if IsAnomalous(payload)
        then PushFront(old(alerts), Alert(alertId, ClimateAnomaly, "high", HeatSpikeMessage(tempText), now), AlertCap)
        else old(alerts)
      ensures var n := if IsAnomalous(payload) then 1 else 0;
        && engine.currentTimestep == old(engine.currentTimestep) + n
        && engine.history == old(engine.history) +
             E.Trajectory(engine.gnn, engine.edgeIndex, old(engine.x), map[], old(engine.currentTimestep), n)
        && engine.x == E.Evolve(engine.gnn, engine.edgeIndex, old(engine.x), map[], n)
    {
      if payload.isAnomaly || payload.temp > 38.0 {
        anomalyDetected := true;
        LogAlert(alertId, ClimateAnomaly, HeatSpikeMessage(tempText), "high", now);
        PoliciesNameNoLever();
        E.IgnoredPolicyStep(engine.gnn, engine.edgeIndex, engine.x, StressPolicy);
        E.TrajectorySnoc(engine.gnn, engine.edgeIndex, engine.x, map[], engine.currentTimestep, 0, engine.x);
        var _ := engine.Step(StressPolicy);
      } else {
        anomalyDetected := false;
      }
    }
  }

  /** The sync step of `update_digital_twin`: one engine step, under the
      emissions policy above 32 degrees and under none otherwise; either
      way a policy-free step. */
  method SyncEngine(payload: SignalUpdate, engine: E.SimulationEngine)
    requires engine.Valid()
    modifies engine
    ensures engine.Valid()
    ensures engine.currentTimestep == old(engine.currentTimestep) + 1
    ensures engine.x == E.Transition(engine.gnn, engine.edgeIndex, old(engine.x), map[])
    ensures engine.history == old(engine.history) + [E.MetricsOf(engine.currentTimestep, engine.x)]
  {
    var policy := if payload.temp > 32.0 then EmissionsPolicy else map[];
    PoliciesNameNoLever();
    E.IgnoredPolicyStep(engine.gnn, engine.edgeIndex, engine.x, policy);
    var _ := engine.Step(policy);
  }

  /** `get_water` reads the reservoir level nothing ever changes, so the
      status it reports is always "normal". */
  function GetWater(state: GovernanceState): (r: WaterReport)
    ensures r.status == WaterStatus(r.reservoirLevelPercent)
    ensures r.reservoirLevelPercent == 85.0 && r.status == Normal
  {
    WaterReport(state.reservoirPercent, WaterStatus(state.reservoirPercent))
  }

  // ---------------------------------------------------------------------
  // Map view of the nodes

  /** One entry of `get_nodes`. */
  datatype NodeView = NodeView(id: nat, lat: real, lon: real, stress: real, emissions: real, vulnerability: real)

  function Abs(v: real): real {
    if v < 0.0 then -v else v
  }

  /** The visual stress of a node: the mean magnitude of its stress and
      vulnerability, kept within [0, 1]. */
  function NodeComposite(stress: real, vulnerability: real): (c: real)
    ensures 0.0 <= c <= 1.0
    ensures 0.0 <= stress && 0.0 <= vulnerability && stress + vulnerability <= 2.0 ==>
      c == (stress + vulnerability) / 2.0
  {
    Clamp((Abs(stress) + Abs(vulnerability)) / 2.0, 0.0, 1.0)
  }

  /** `get_nodes`: one entry per row of the state, in row order, with the
      node's composite stress, emissions and vulnerability. `lats` and
      `lons` are the coordinates drawn from the seeded generator. */
  method GetNodes(engine: E.SimulationEngine, lats: seq<real>, lons: seq<real>)
    returns (nodes: seq<NodeView>, timestep: int)
    requires engine.Valid() && |lats| == |engine.x| && |lons| == |engine.x|
    ensures |nodes| == |engine.x| && timestep == engine.currentTimestep
    ensures forall i :: 0 <= i < |nodes| ==>
      && nodes[i].id == i && nodes[i].lat == lats[i] && nodes[i].lon == lons[i]
      && 0.0 <= nodes[i].stress <= 1.0
      && nodes[i].stress == NodeComposite(engine.x[i][Stress], engine.x[i][Vulnerability])
      && nodes[i].emissions == engine.x[i][Emissions]
      && nodes[i].vulnerability == engine.x[i][Vulnerability]
  {
    var x := engine.x;
    var n := |x|;
    nodes := [];
    var i := 0;
    while i < n
      invariant 0 <= i <= n && |nodes| == i
      invariant forall k :: 0 <= k < i ==>
        && nodes[k].id == k && nodes[k].lat == lats[k] && nodes[k].lon == lons[k]
        && nodes[k].stress == NodeComposite(x[k][Stress], x[k][Vulnerability])
        && nodes[k].emissions == x[k][Emissions]
        && nodes[k].vulnerability == x[k][Vulnerability]
    {
      var stress, ems, vuln := x[i][Stress], x[i][Emissions], x[i][Vulnerability];
      var composite := NodeComposite(stress, vuln);
      nodes := nodes + [NodeView(i, lats[i], lons[i], composite, ems, vuln)];
      i := i + 1;
    }
    timestep := engine.currentTimestep;
  }

  // ---------------------------------------------------------------------
  // The projection endpoint

  /** The slice `run_simulation` answers with: the records from the
      pre-call timestep on. */
  function WindowAsWritten(history: seq<E.Metrics>, start: int, steps: int): seq<E.Metrics> {
    Slice(history, start, start + steps)
  }

  /** The records the projection appended: the ones after the pre-call
      timestep. */
  function NewRecords(history: seq<E.Metrics>, start: int, steps: int): seq<E.Metrics> {
    Slice(history, start + 1, start + 1 + steps)
  }

  /** On a history in lock-step with the timestep, a projection of at
      least one step from timestep `start` gets back the record of `start`
      itself, which it did not produce, first, and never the record of its
      own last step. */
  lemma WindowMissesLastStep(history: seq<E.Metrics>, start: nat, steps: nat)
    requires E.Lockstep(history, start + steps + 1) && 0 < steps
    ensures var w := WindowAsWritten(history, start, steps);
      && |w| == steps
      && w[0].timestep == start
      && (forall k :: 0 <= k < |w| ==> w[k].timestep == start + k)
      && (forall k :: 0 <= k < |w| ==> w[k].timestep != start + steps)
  {
  }

  /** The corrected slice is exactly what the projection returned. */
  lemma {:induction false} NewRecordsAreProjection(before: seq<E.Metrics>, results: seq<E.Metrics>, start: nat)
    requires |before| == start + 1
    ensures NewRecords(before + results, start, |results|) == results
  {
    var h := before + results;
    var r := NewRecords(h, start, |results|);
    assert SliceBound(start + 1, |h|) == start + 1;
    assert SliceBound(start + 1 + |results|, |h|) == |h|;
    assert |r| == |results|;
    forall k | 0 <= k < |r| ensures r[k] == results[k] {
      assert r[k] == h[start + 1 + k];
    }
  }

  /** `run_simulation` as written: it runs the projection, then answers
      with `history[start : start + steps]`, which starts one record too
      early. */
  method RunSimulationAsWritten(engine: E.SimulationEngine, steps: int, policy: E.Policy)
    returns (results: seq<E.Metrics>)
    requires engine.Valid() && E.PolicyDefined(policy)
    modifies engine
    ensures engine.Valid()
    ensures engine.currentTimestep == old(engine.currentTimestep) + Gen.Runs(steps)
    ensures engine.history == old(engine.history) +
      E.Trajectory(engine.gnn, engine.edgeIndex, old(engine.x), policy, old(engine.currentTimestep), Gen.Runs(steps))
    ensures engine.x == E.Evolve(engine.gnn, engine.edgeIndex, old(engine.x), policy, Gen.Runs(steps))
    ensures results == WindowAsWritten(engine.history, old(engine.currentTimestep), steps)
    ensures 0 < steps ==> |results| == steps && results[0].timestep == old(engine.currentTimestep)
    ensures 0 < steps ==> forall k :: 0 <= k < |results| ==> results[k].timestep != engine.currentTimestep
  {
    var start := engine.currentTimestep;
    var _ := engine.RunProjection(steps, policy);
    results := Slice(engine.history, start, start + steps);
    if 0 < steps {
      WindowMissesLastStep(engine.history, start, steps);
    }
  }

  /** `run_simulation` as intended: the answer is the records of the new
      timesteps `start + 1 .. start + steps`, the very ones the projection
      produced. */
  method RunSimulation(engine: E.SimulationEngine, steps: int, policy: E.Policy)
    returns (results: seq<E.Metrics>)
    requires engine.Valid() && E.PolicyDefined(policy)
    modifies engine
    ensures engine.Valid()
    ensures |results| == Gen.Runs(steps)
    ensures engine.currentTimestep == old(engine.currentTimestep) + Gen.Runs(steps)
    ensures engine.history == old(engine.history) + results
    ensures engine.x == E.Evolve(engine.gnn, engine.edgeIndex, old(engine.x), policy, Gen.Runs(steps))
    ensures forall k :: 0 <= k < |results| ==> results[k].timestep == old(engine.currentTimestep) + k + 1
    ensures results == E.Trajectory(engine.gnn, engine.edgeIndex, old(engine.x), policy, old(engine.currentTimestep), |results|)
  {
    var start := engine.currentTimestep;
    ghost var before := engine.history;
    var projected := engine.RunProjection(steps, policy);
    results := NewRecords(engine.history, start, Gen.Runs(steps));
    NewRecordsAreProjection(before, projected, start);
    E.TrajectoryScores(engine.gnn, engine.edgeIndex, old(engine.x), policy, start, |results|);
  }
}
