/** The planetary digital twin of data/data.py: one `SimulationState`
    whose fields the signal-injection endpoint and the emergency
    simulation update in place, with newest-first alert and timeline logs
    and the read-only dashboard views over them. Timestamps and random
    alert ids are inputs of the operations that stamp them. */
module DataTwin {
  import opened TwinRules
  import opened PySeq

  /** An entry of the timeline log. */
  datatype TimelineEvent = TimelineEvent(
    cycleId: int,
    realSignal: string,
    anomalyScore: int,
    policyApplied: string,
    sdgChange: real,
    resultingStability: real,
    timestamp: string)

  const BasePolicy := "Base Sustainable Framework"
  const EmergencyPolicy := "Emergency Drought Mitigation v1.4"
  const EmergencyExplanation :=
    "Automated simulation suggests priority water rationing for industry to preserve municipal SDG-6 stability."
  const PolicyTriggered := "policy_triggered"
  const WeatherInjection := "weather_injection"

  /** The change of the reservoir level for one signal: half the
      precipitation when it exceeds 0.1, otherwise a loss of 0.05. */
  function ReservoirDelta(precip: real): (d: real)
    ensures precip > 0.1 ==> d > 0.05
    ensures precip <= 0.1 ==> d == -0.05
  {
    if precip > 0.1 then precip * 0.5 else -0.05
  }

  /** GDP growth after one signal: scaled by the economic stress factor,
      so a factor of 1 leaves it alone and a factor between 0 and 1 shrinks
      a positive rate. */
  function Compound(growth: real, econStress: real): (r: real)
    ensures econStress == 1.0 ==> r == growth
    ensures 0.0 < growth && 0.0 <= econStress < 1.0 ==> r < growth
  {
    growth * econStress
  }

  /** The stability score: 100 less 30 points per unit of water stress and
      20 per unit of public pressure, kept within [0, 100]. */
  function StabilityScore(waterStress: real, publicPressure: real): (s: real)
    ensures 0.0 <= s <= 100.0
  {
    Clamp(100.0 - waterStress * 30.0 - publicPressure * 20.0, 0.0, 100.0)
  }

  /** More water stress or more public pressure never raises stability;
      with neither (both at 0) stability is 100. */
  lemma StabilityAntitone(ws1: real, pp1: real, ws2: real, pp2: real)
    requires ws1 <= ws2 && pp1 <= pp2
    ensures StabilityScore(ws2, pp2) <= StabilityScore(ws1, pp1)
    ensures StabilityScore(0.0, 0.0) == 100.0
  {
  }

  /** The SDG composite: the mean of the environment average (reservoir
      level and CO2 headroom above 400 ppm) and government confidence in
      percent. */
  function SdgComposite(reservoirPercent: real, co2Ppm: real, govConfidence: real): (r: real)
    ensures 0.0 <= reservoirPercent <= 100.0 && 400.0 <= co2Ppm <= 500.0 && 0.0 <= govConfidence <= 1.0
      ==> 0.0 <= r <= 100.0
  {
    var avgEnv := (reservoirPercent + (100.0 - (co2Ppm - 400.0))) / 2.0;
    (avgEnv + govConfidence * 100.0) / 2.0
  }

  /** The composite rises with the reservoir level and with confidence,
      and falls as CO2 rises. */
  lemma SdgCompositeMonotone(r1: real, c1: real, g1: real, r2: real, c2: real, g2: real)
    requires r1 <= r2 && c2 <= c1 && g1 <= g2
    ensures SdgComposite(r1, c1, g1) <= SdgComposite(r2, c2, g2)
  {
  }

  /** The alert log after one signal: on an anomaly, the "climate_anomaly"
      alert and then the "policy_triggered" alert of the emergency
      simulation are pushed; otherwise the log is left alone. */
  function AlertsAfter(log: seq<Alert>, payload: SignalUpdate, tempText: string,
                       anomalyId: AlertId, policyId: AlertId, now: string): (r: seq<Alert>)
    ensures !IsAnomalous(payload) ==> r == log
    ensures IsAnomalous(payload) && |log| <= AlertCap ==>
      |r| == (if |log| + 2 <= AlertCap then |log| + 2 else AlertCap)
    ensures |log| <= AlertCap ==> |r| <= AlertCap
  {
    if IsAnomalous(payload) then
      PushFront(PushFront(log, Alert(anomalyId, ClimateAnomaly, "high", HeatSpikeMessage(tempText), now), AlertCap),
        Alert(policyId, PolicyTriggered, "medium", "Autonomous Emergency Simulation Successful", now), AlertCap)
    else log
  }

  /** On an anomaly the newest alert is "policy_triggered" and the one
      behind it "climate_anomaly", the older alerts move back by two and the
      oldest fall out past 20; otherwise the log is unchanged. */
  lemma AnomalyAlerts(log: seq<Alert>, payload: SignalUpdate, tempText: string,
                      anomalyId: AlertId, policyId: AlertId, now: string)
    requires |log| <= AlertCap
    ensures var r := AlertsAfter(log, payload, tempText, anomalyId, policyId, now);
      && |r| <= AlertCap
      && (!IsAnomalous(payload) ==> r == log)
      && (IsAnomalous(payload) ==>
            && r[0].kind == PolicyTriggered && r[0].severity == "medium"
            && r[1].kind == ClimateAnomaly && r[1].severity == "high"
            && |r| == Min(|log| + 2, AlertCap)
            && forall i :: 0 <= i < |r| - 2 ==> r[i + 2] == log[i])
  {
  }

  /** The body of `get_forecast`. */
  datatype Forecast = Forecast(reservoirProjection: seq<real>, emissionProjection: seq<real>, riskProbability: real)

  /** The seven-cycle mock projection: the reservoir falls by 1.2 and CO2
      rises by 0.4 per cycle from the current values. */
  function ForecastOf(reservoirPercent: real, co2Ppm: real, anomalyDetected: bool): (f: Forecast)
    ensures |f.reservoirProjection| == 7 && |f.emissionProjection| == 7
    ensures f.riskProbability == 0.63 <==> anomalyDetected
  {
    Forecast(
      seq(7, i => reservoirPercent - (i as real) * 1.2),
      seq(7, i => co2Ppm + (i as real) * 0.4),
      if anomalyDetected then 0.63 else 0.12)
  }

  /** The projections start at the current values and move by a fixed
      step: the reservoir strictly down, CO2 strictly up. */
  lemma ForecastTrend(reservoirPercent: real, co2Ppm: real, anomalyDetected: bool)
    ensures var f := ForecastOf(reservoirPercent, co2Ppm, anomalyDetected);
      && f.reservoirProjection[0] == reservoirPercent
      && f.emissionProjection[0] == co2Ppm
      && (forall i :: 0 < i < 7 ==> f.reservoirProjection[i] == f.reservoirProjection[i - 1] - 1.2)
      && (forall i :: 0 < i < 7 ==> f.emissionProjection[i] == f.emissionProjection[i - 1] + 0.4)
      && (forall i, j :: 0 <= i < j < 7 ==>
            f.reservoirProjection[j] < f.reservoirProjection[i] && f.emissionProjection[i] < f.emissionProjection[j])
  {
  }

  /** `int(v)`: truncation toward zero. */
  function Truncate(v: real): int {
    if v >= 0.0 then v.Floor else -((-v).Floor)
  }

  /** The body of `get_water`. */
  datatype WaterReport = WaterReport(
    reservoirLevelPercent: real,
    dailyInflow: real,
    dailyOutflow: real,
    waterStressIndex: real,
    daysUntilCritical: int,
    status: WaterState)

  /** The planetary state. The averages and flows that nothing in the
      source writes after `__init__` (the seven-cycle temperature average,
      the water inflow, outflow and stress, public pressure and government
      confidence) are constants. */
  class SimulationState {
    var cycleId: int
    var lastUpdate: string
    var tempCurrent: real
    const tempAvg: real := 30.0
    var precipCurrent: real
    var anomalyDetected: bool
    var reservoirPercent: real
    const waterInflow: real := 1.2
    const waterOutflow: real := 1.0
    const waterStress: real := 0.2
    var waterStatus: WaterState
    var co2Ppm: real
    var aqi: real
    var gdpGrowth: real
    const publicPressure: real := 0.2
    const govConfidence: real := 0.82
    var sdgComposite: real
    var stabilityScore: real
    var confidenceScore: real
    var activePolicy: string
    var lastPolicyRun: Option<string>
    var lastExplanation: string
    var riskLevel: string
    var alerts: seq<Alert>
    var timeline: seq<TimelineEvent>

    /** The logs stay within their caps, the reservoir level and the stability score lie in
        [0, 100], and the water status agrees with the reservoir level. */
    ghost predicate Valid()
      reads this
    {
      && |alerts| <= AlertCap
      && |timeline| <= TimelineCap
      && 0.0 <= reservoirPercent <= 100.0
      && waterStatus == WaterStatus(reservoirPercent)
      && 0.0 <= stabilityScore <= 100.0
    }

    /** The initial state of the twin, stamped `now`. */
    constructor(now: string)
      ensures Valid()
      ensures cycleId == 1000 && lastUpdate == now
      ensures tempCurrent == 30.0 && tempAvg == 30.0 && precipCurrent == 0.5 && !anomalyDetected
      ensures reservoirPercent == 85.0 && waterStatus == Normal
      ensures waterInflow == 1.2 && waterOutflow == 1.0 && waterStress == 0.2
      ensures co2Ppm == 418.0 && aqi == 42.0 && gdpGrowth == 2.5
      ensures publicPressure == 0.2 && govConfidence == 0.82
      ensures sdgComposite == 75.0 && stabilityScore == 90.0 && confidenceScore == 0.85
      ensures activePolicy == BasePolicy && lastPolicyRun == None && riskLevel == "low"
      ensures lastExplanation == "System optimized for stable SDG progression."
      ensures alerts == [] && timeline == []
    {
      cycleId := 1000;
      lastUpdate := now;
      tempCurrent := 30.0;
      precipCurrent := 0.5;
      anomalyDetected := false;
      reservoirPercent := 85.0;
      waterStatus := Normal;
      co2Ppm := 418.0;
      aqi := 42.0;
      gdpGrowth := 2.5;
      sdgComposite := 75.0;
      stabilityScore := 90.0;
      confidenceScore := 0.85;
      activePolicy := BasePolicy;
      lastPolicyRun := None;
      lastExplanation := "System optimized for stable SDG progression.";
      riskLevel := "low";
      alerts := [];
      timeline := [];
    }

    /** `add_alert`: the new alert goes in front and the oldest one drops
        out once there are more than 20. */
    method AddAlert(id: AlertId, kind: string, message: string, severity: string, now: string)
      modifies this`alerts
      ensures alerts == PushFront(old(alerts), Alert(id, kind, severity, message, now), AlertCap)
    {
      var alert := Alert(id, kind, severity, message, now);
      alerts := [alert] + alerts;
      if |alerts| > AlertCap {
        alerts := alerts[..|alerts| - 1];
      }
    }

    /** `add_timeline_event`: the event, stamped with the current cycle,
        goes in front and the oldest drops out once there are more than
        50. */
    method AddTimelineEvent(signal: string, anomaly: int, policy: string, sdgDelta: real, stability: real, now: string)
      modifies this`timeline
      ensures timeline ==
        PushFront(old(timeline), TimelineEvent(cycleId, signal, anomaly, policy, sdgDelta, stability, now), TimelineCap)
    {
      var event := TimelineEvent(cycleId, signal, anomaly, policy, sdgDelta, stability, now);
      timeline := [event] + timeline;
      if |timeline| > TimelineCap {
        timeline := timeline[..|timeline| - 1];
      }
    }

    /** `update_composites`: recomputes the two headline numbers; the
        stability score lands in [0, 100] whatever the stress and pressure
        readings are. */
    method UpdateComposites()
      modifies this`stabilityScore, this`sdgComposite
      ensures stabilityScore == StabilityScore(waterStress, publicPressure)
      ensures 0.0 <= stabilityScore <= 100.0
      ensures sdgComposite == SdgComposite(reservoirPercent, co2Ppm, govConfidence)
    {
      var raw := 100.0 - waterStress * 30.0 - publicPressure * 20.0;
      stabilityScore := if 0.0 >= raw then 0.0 else if raw >= 100.0 then 100.0 else raw;
      var avgEnv := (reservoirPercent + (100.0 - (co2Ppm - 400.0))) / 2.0;
      sdgComposite := (avgEnv + govConfidence * 100.0) / 2.0;
    }

    /** `run_emergency_simulation`: switches to the emergency policy and
        logs a "policy_triggered" alert. */
    method RunEmergencySimulation(alertId: AlertId, now: string) returns (status: string, policy: string)
      modifies this`lastPolicyRun, this`activePolicy, this`riskLevel, this`confidenceScore
      modifies this`lastExplanation, this`alerts
      ensures lastPolicyRun == Some(now) && activePolicy == EmergencyPolicy
      ensures riskLevel == "moderate" && confidenceScore == 0.82 && lastExplanation == EmergencyExplanation
      ensures alerts == PushFront(old(alerts),
        Alert(alertId, PolicyTriggered, "medium", "Autonomous Emergency Simulation Successful", now), AlertCap)
      ensures status == "simulated" && policy == EmergencyPolicy
    {
      lastPolicyRun := Some(now);
      activePolicy := EmergencyPolicy;
      riskLevel := "moderate";
      confidenceScore := 0.82;
      lastExplanation := EmergencyExplanation;
      AddAlert(alertId, PolicyTriggered, "Autonomous Emergency Simulation Successful", "medium", now);
      status, policy := "simulated", activePolicy;
    }

    /** `update_state`: one signal injection. `tempText` is the payload
        temperature as Python prints it, `anomalyId` and `policyId` the
        random ids of the two alerts an anomaly raises. Returns the new
        cycle id. */
    method UpdateState(payload: SignalUpdate, tempText: string, anomalyId: AlertId, policyId: AlertId, now: string)
      returns (cycle: int)
      requires Valid()
      modifies this
      ensures Valid()
      ensures cycleId == old(cycleId) + 1 && cycle == cycleId
      ensures lastUpdate == now
      ensures tempCurrent == payload.temp && precipCurrent == payload.precip && aqi == payload.aqi
      ensures co2Ppm == old(co2Ppm) + payload.co2Delta
      ensures anomalyDetected <==> IsAnomalous(payload)
      ensures alerts == AlertsAfter(old(alerts), payload, tempText, anomalyId, policyId, now)
      ensures IsAnomalous(payload) ==>
        && activePolicy == EmergencyPolicy && lastPolicyRun == Some(now)
        && riskLevel == "moderate" && confidenceScore == 0.82 && lastExplanation == EmergencyExplanation
      ensures !IsAnomalous(payload) ==>
        && activePolicy == old(activePolicy) && lastPolicyRun == old(lastPolicyRun)
        && riskLevel == old(riskLevel) && confidenceScore == old(confidenceScore)
        && lastExplanation == old(lastExplanation)
      ensures reservoirPercent == Clamp(old(reservoirPercent) + ReservoirDelta(payload.precip), 0.0, 100.0)
      ensures waterStatus == Warning <==> reservoirPercent < 40.0
      ensures gdpGrowth == Compound(old(gdpGrowth), payload.econStress)
      ensures stabilityScore == StabilityScore(waterStress, publicPressure)
      ensures sdgComposite == SdgComposite(reservoirPercent, co2Ppm, govConfidence)
      ensures timeline == PushFront(old(timeline),
        TimelineEvent(cycleId, WeatherInjection, if payload.isAnomaly then 1 else 0, activePolicy, 0.2, stabilityScore, now),
        TimelineCap)
    {
      ApplySignal(payload, tempText, anomalyId, policyId, now);
      CloseCycle(payload.econStress, if payload.isAnomaly then 1 else 0, now);
      cycle := cycleId;
    }

    /** The first half of `update_state`: the new cycle and readings, the
        anomaly rule and the water rule. */
    method ApplySignal(payload: SignalUpdate, tempText: string, anomalyId: AlertId, policyId: AlertId, now: string)
      requires |alerts| <= AlertCap
      modifies this`cycleId, this`lastUpdate, this`tempCurrent, this`precipCurrent, this`aqi, this`co2Ppm
      modifies this`anomalyDetected, this`lastPolicyRun, this`activePolicy, this`riskLevel, this`confidenceScore
      modifies this`lastExplanation, this`alerts, this`reservoirPercent, this`waterStatus
      ensures |alerts| <= AlertCap && 0.0 <= reservoirPercent <= 100.0 && waterStatus == WaterStatus(reservoirPercent)
      ensures cycleId == old(cycleId) + 1
      ensures lastUpdate == now
      ensures tempCurrent == payload.temp && precipCurrent == payload.precip && aqi == payload.aqi
      ensures co2Ppm == old(co2Ppm) + payload.co2Delta
      ensures anomalyDetected <==> IsAnomalous(payload)
      ensures alerts == AlertsAfter(old(alerts), payload, tempText, anomalyId, policyId, now)
      ensures IsAnomalous(payload) ==>
        && activePolicy == EmergencyPolicy && lastPolicyRun == Some(now)
        && riskLevel == "moderate" && confidenceScore == 0.82 && lastExplanation == EmergencyExplanation
      ensures !IsAnomalous(payload) ==>
        && activePolicy == old(activePolicy) && lastPolicyRun == old(lastPolicyRun)
        && riskLevel == old(riskLevel) && confidenceScore == old(confidenceScore)
        && lastExplanation == old(lastExplanation)
      ensures reservoirPercent == Clamp(old(reservoirPercent) + ReservoirDelta(payload.precip), 0.0, 100.0)
    {
      ReadSignal(payload, now);
      RespondToAnomaly(payload, tempText, anomalyId, policyId, now);
      ghost var logged := alerts;
      UpdateWater(payload.precip);
      assert alerts == logged;
    }

    /** The readings of `update_state`: a new cycle, stamped `now`, with the
        payload's temperature, precipitation and air quality, and its CO2
        increment added. */
    method ReadSignal(payload: SignalUpdate, now: string)
      modifies this`cycleId, this`lastUpdate, this`tempCurrent, this`precipCurrent, this`aqi, this`co2Ppm
      ensures cycleId == old(cycleId) + 1
      ensures lastUpdate == now
      ensures tempCurrent == payload.temp && precipCurrent == payload.precip && aqi == payload.aqi
      ensures co2Ppm == old(co2Ppm) + payload.co2Delta
    {
      cycleId := cycleId + 1;
      lastUpdate := now;
      tempCurrent := payload.temp;
      precipCurrent := payload.precip;
      aqi := payload.aqi;
      co2Ppm := co2Ppm + payload.co2Delta;
    }

    /** The anomaly rule of `update_state`: on an anomaly, a "climate_anomaly"
        alert followed by the emergency simulation; otherwise the flag is
        cleared. */
    method RespondToAnomaly(payload: SignalUpdate, tempText: string, anomalyId: AlertId, policyId: AlertId, now: string)
      requires |alerts| <= AlertCap
      modifies this`anomalyDetected, this`lastPolicyRun, this`activePolicy, this`riskLevel, this`confidenceScore
      modifies this`lastExplanation, this`alerts
      ensures |alerts| <= AlertCap
      ensures anomalyDetected <==> IsAnomalous(payload)
      ensures alerts == AlertsAfter(old(alerts), payload, tempText, anomalyId, policyId, now)
      ensures IsAnomalous(payload) ==>
        && activePolicy == EmergencyPolicy && lastPolicyRun == Some(now)
        && riskLevel == "moderate" && confidenceScore == 0.82 && lastExplanation == EmergencyExplanation
      ensures !IsAnomalous(payload) ==>
        && activePolicy == old(activePolicy) && lastPolicyRun == old(lastPolicyRun)
        && riskLevel == old(riskLevel) && confidenceScore == old(confidenceScore)
        && lastExplanation == old(lastExplanation)
    {
      if payload.isAnomaly || payload.temp > 38.0 {
        anomalyDetected := true;
        AddAlert(anomalyId, ClimateAnomaly, HeatSpikeMessage(tempText), "high", now);
        var _, _ := RunEmergencySimulation(policyId, now);
      } else {
        anomalyDetected := false;
      }
    }

    /** The end of `update_state`: GDP growth is scaled by the economic
        stress factor, the composites are recomputed and one
        "weather_injection" event records the cycle under the policy now in
        force. */
    method CloseCycle(econStress: real, anomalyScore: int, now: string)
      requires |timeline| <= TimelineCap
      modifies this`gdpGrowth, this`stabilityScore, this`sdgComposite, this`timeline
      ensures gdpGrowth == Compound(old(gdpGrowth), econStress)
      ensures stabilityScore == StabilityScore(waterStress, publicPressure)
      ensures sdgComposite == SdgComposite(reservoirPercent, co2Ppm, govConfidence)
      ensures timeline == PushFront(old(timeline),
        TimelineEvent(cycleId, WeatherInjection, anomalyScore, activePolicy, 0.2, stabilityScore, now), TimelineCap)
      ensures |timeline| <= TimelineCap
    {
      ScaleGdp(econStress);
      UpdateComposites();
      AddTimelineEvent(WeatherInjection, anomalyScore, activePolicy, 0.2, stabilityScore, now);
    }

    /** The economy rule of `update_state`: GDP growth is scaled by the
        economic stress factor. */
    method ScaleGdp(econStress: real)
      modifies this`gdpGrowth
      ensures gdpGrowth == Compound(old(gdpGrowth), econStress)
    {
      gdpGrowth := gdpGrowth * econStress;
    }

    /** The water rule of `update_state`: the reservoir moves by the
        precipitation delta, clamped to [0, 100], and the status follows
        the level. */
    method UpdateWater(precip: real)
      modifies this`reservoirPercent, this`waterStatus
      ensures reservoirPercent == Clamp(old(reservoirPercent) + ReservoirDelta(precip), 0.0, 100.0)
      ensures waterStatus == WaterStatus(reservoirPercent)
    {
      var resDelta := if precip > 0.1 then precip * 0.5 else -0.05;
      var level := reservoirPercent + resDelta;
      reservoirPercent := if 0.0 >= level then 0.0 else if level >= 100.0 then 100.0 else level;
      waterStatus := if reservoirPercent < 40.0 then Warning else Normal;
    }

    /** `get_timeline(limit)`: `timeline[:limit]`. */
    function GetTimeline(limit: int): (r: seq<TimelineEvent>)
      reads this
      ensures 0 <= limit ==> r == timeline[..Min(limit, |timeline|)]
      ensures limit < 0 ==> r == timeline[..if |timeline| + limit < 0 then 0 else |timeline| + limit]
    {
      TakeFront(timeline, limit);
      Slice(timeline, 0, limit)
    }

    /** `get_forecast`. */
    function GetForecast(): (f: Forecast)
      reads this
      ensures f == ForecastOf(reservoirPercent, co2Ppm, anomalyDetected)
      ensures |f.reservoirProjection| == 7 && f.reservoirProjection[0] == reservoirPercent
      ensures |f.emissionProjection| == 7 && f.emissionProjection[0] == co2Ppm
      ensures f.riskProbability == 0.63 <==> anomalyDetected
    {
      ForecastOf(reservoirPercent, co2Ppm, anomalyDetected)
    }

    /** `get_water`: on a valid state the status is "warning" exactly when
        the reservoir is below 40 percent, and the days until critical
        (half the level, truncated) lie in [0, 50]. */
    function GetWater(): (r: WaterReport)
      reads this
      ensures r.reservoirLevelPercent == reservoirPercent && r.status == waterStatus
      ensures Valid() ==> (r.status == Warning <==> r.reservoirLevelPercent < 40.0)
      ensures Valid() ==> 0 <= r.daysUntilCritical <= 50
    {
      WaterReport(reservoirPercent, waterInflow, waterOutflow, waterStress, Truncate(reservoirPercent / 2.0), waterStatus)
    }
  }
}
