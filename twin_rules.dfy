/** Rules shared by the two governance state machines (data/data.py and
    backend/api/server.py): the bounded, newest-first history lists, the
    clamp to a range, the anomaly rule and the water-status rule, and the
    signal payload both update endpoints accept. */
module TwinRules {

  /** The payload of the "update digital twin" endpoints (StateUpdate /
      SignalUpdate). Every field but `temp` and `precip` has a default in the
      source; the model takes all of them as given. */
  datatype SignalUpdate = SignalUpdate(
    temp: real,
    precip: real,
    windSpeed: real,
    solar: real,
    aqi: real,
    co2Delta: real,
    econStress: real,
    isAnomaly: bool)

  /** The defaults of the optional payload fields. */
  function DefaultSignal(temp: real, precip: real): (s: SignalUpdate)
    ensures s.temp == temp && s.precip == precip
    ensures !s.isAnomaly && s.aqi == 42.0 && s.co2Delta == 0.01 && s.econStress == 1.0
  {
    SignalUpdate(temp, precip, 0.0, 0.0, 42.0, 0.01, 1.0, false)
  }

  /** `random.randint(1000, 9999)`. */
  type AlertId = i: int | 1000 <= i <= 9999 witness 1000

  /** An entry of the alert log. */
  datatype Alert = Alert(id: AlertId, kind: string, severity: string, message: string, timestamp: string)

  const ClimateAnomaly := "climate_anomaly"

  /** The alert text of a heat spike, given the temperature as Python
      prints it. */
  function HeatSpikeMessage(tempText: string): string {
    "Heat spike detected: " + tempText + "°C"
  }

  const AlertCap: nat := 20
  const TimelineCap: nat := 50

  /** `log.insert(0, item)` followed by one `log.pop()` when the list has
      grown past `cap`. */
  function PushFront<T>(log: seq<T>, item: T, cap: nat): (r: seq<T>)
    ensures cap > 0 ==> |r| > 0 && r[0] == item
    ensures |log| < cap ==> |r| == |log| + 1
    ensures cap <= |log| ==> |r| == |log|
    ensures |log| <= cap ==> |r| <= cap
    ensures forall i :: 0 <= i < |r| - 1 ==> r[i + 1] == log[i]
  {
    var grown := [item] + log;
    if |grown| > cap then grown[..|grown| - 1] else grown
  }

  function Min(a: int, b: int): int { if a <= b then a else b }

  function Reverse<T>(s: seq<T>): (r: seq<T>)
    ensures |r| == |s|
    ensures forall i :: 0 <= i < |s| ==> r[i] == s[|s| - 1 - i]
  {
    if s == [] then [] else Reverse(s[1..]) + [s[0]]
  }

  /** The log after pushing `items` one by one, first item first. */
  function PushAll<T>(log: seq<T>, items: seq<T>, cap: nat): seq<T>
    decreases |items|
  {
    if items == [] then log
    else PushFront(PushAll(log, items[..|items| - 1], cap), items[|items| - 1], cap)
  }

  /** One push keeps the newest `cap` entries, newest first. */
  lemma PushFrontKeepsNewest<T>(log: seq<T>, item: T, cap: nat)
    requires |log| <= cap
    ensures PushFront(log, item, cap) == ([item] + log)[..Min(|log| + 1, cap)]
  {
  }

  /** Whatever sequence of pushes happened, a log that started within its
      cap holds exactly the newest `cap` entries, newest first: the most
      recent item at index 0, the previous log behind the pushed items. */
  lemma {:induction false} PushAllKeepsNewest<T>(log: seq<T>, items: seq<T>, cap: nat)
    requires |log| <= cap
    ensures PushAll(log, items, cap) == (Reverse(items) + log)[..Min(|items| + |log|, cap)]
    decreases |items|
  {
    if items == [] {
      assert Reverse(items) + log == log;
    } else {
      var front, last := items[..|items| - 1], items[|items| - 1];
      PushAllKeepsNewest(log, front, cap);
      var p := PushAll(log, front, cap);
      var whole := Reverse(front) + log;
      var m := Min(|front| + |log|, cap);
      PushFrontKeepsNewest(p, last, cap);
      ReverseSnoc(front, last);
      assert items == front + [last];
      assert Reverse(items) + log == [last] + whole;
      var k := Min(m + 1, cap);
      assert k == Min(|items| + |log|, cap);
      calc {
        PushAll(log, items, cap);
        PushFront(p, last, cap);
        ([last] + p)[..k];
        { assert [last] + p == ([last] + whole)[..m + 1]; }
        ([last] + whole)[..k];
      }
    }
  }

  lemma ReverseSnoc<T>(s: seq<T>, x: T)
    ensures Reverse(s + [x]) == [x] + Reverse(s)
  {
    var r, t := Reverse(s + [x]), [x] + Reverse(s);
    assert |r| == |t|;
    forall i | 0 <= i < |r| ensures r[i] == t[i] {
      if i > 0 {
        assert r[i] == (s + [x])[|s| - i];
      }
    }
  }

  /** max(lo, min(hi, v)). */
  function Clamp(v: real, lo: real, hi: real): (r: real)
    requires lo <= hi
    ensures lo <= r <= hi
    ensures lo <= v <= hi ==> r == v
    ensures v < lo ==> r == lo
    ensures hi < v ==> r == hi
  {
    if v < lo then lo else if v > hi then hi else v
  }

  /** `payload.is_anomaly or payload.temp > 38`: a flagged payload is
      always an anomaly, an unflagged one exactly when it is strictly
      hotter than 38 degrees. */
  predicate IsAnomalous(p: SignalUpdate)
    ensures p.isAnomaly ==> IsAnomalous(p)
    ensures !p.isAnomaly ==> (IsAnomalous(p) <==> p.temp > 38.0)
  {
    p.isAnomaly || p.temp > 38.0
  }

  /** The water status the dashboard shows. */
  datatype WaterState = Normal | Warning {
    function Label(): string {
      match this
      case Normal => "normal"
      case Warning => "warning"
    }
  }

  /** "warning" below 40 percent, "normal" otherwise. */
  function WaterStatus(reservoirPercent: real): (s: WaterState)
    ensures s == Warning <==> reservoirPercent < 40.0
  {
    if reservoirPercent < 40.0 then Warning else Normal
  }
}
