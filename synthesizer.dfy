/** Synthesis of a snapshot from the simulator's draws: clamping and the critical-condition
    override. The sine terms, the random draws and the clock are inputs here. */
module Synthesizer {
  import opened Telemetry
  import opened Classifier

  function Max(a: real, b: real): real { if a >= b then a else b }

  function Min(a: real, b: real): real { if a <= b then a else b }

  /** `Math.max(lo, Math.min(hi, x))`: within [lo, hi] whenever that interval is not empty,
      x itself when x already lies in it, the nearer bound otherwise. */
  function Clamp(lo: real, hi: real, x: real): (r: real)
    ensures lo <= hi ==> lo <= r <= hi
    ensures lo <= x <= hi ==> r == x
    ensures lo <= hi && x < lo ==> r == lo
    ensures lo <= hi && hi < x ==> r == hi
  {
    Max(lo, Min(hi, x))
  }

  function Abs(x: real): real { if x < 0.0 then -x else x }

  /** No point of [lo, hi] is closer to x than its clamp. */
  lemma ClampNearest(lo: real, hi: real, x: real, y: real)
    requires lo <= y <= hi
    ensures Abs(Clamp(lo, hi, x) - x) <= Abs(y - x)
  {
  }

  /** Clamping twice is clamping once. */
  lemma ClampIdempotent(lo: real, hi: real, x: real)
    requires lo <= hi
    ensures Clamp(lo, hi, Clamp(lo, hi, x)) == Clamp(lo, hi, x)
  {
  }

  /** The value each metric is drawn to before clamping: base + amplitude * sin(rate * t) plus a
      uniform jitter, all evaluated outside the model. */
  datatype RawReadings = RawReadings(
    bodyTemperature: real,
    jointMobility: real,
    cabinTemperature: real,
    humidity: real,
    flexSensorRaw: real)

  const MaxPercent := 100.0
  const MaxFlexCount := 4095.0

  /** The number of critical conditions the simulator picks from. */
  const ConditionCount := 5

  /** The metric the i-th critical condition overwrites, and the value it writes. */
  function ConditionMetric(i: nat): Metric
    requires i < ConditionCount
  {
    [BodyTemperature, BodyTemperature, JointMobility, CabinTemperature, Humidity][i]
  }

  function ConditionValue(i: nat): real
    requires i < ConditionCount
  {
    [38.8, 35.2, 25.0, 16.0, 85.0][i]
  }

  function SetReading(d: Snapshot, m: Metric, v: real): Snapshot
  {
    match m
    case BodyTemperature => d.(bodyTemperature := Some(v))
    case JointMobility => d.(jointMobility := Some(v))
    case CabinTemperature => d.(cabinTemperature := Some(v))
    case Humidity => d.(humidity := Some(v))
  }

  /** The i-th critical condition: exactly one classified reading is overwritten with its fixed
      constant; every other reading, the flex sensor's included, is kept. */
  function CriticalOverride(d: Snapshot, i: nat): (r: Snapshot)
    requires i < ConditionCount
    ensures Reading(r, ConditionMetric(i)) == Some(ConditionValue(i))
    ensures forall m :: m != ConditionMetric(i) ==> Reading(r, m) == Reading(d, m)
    ensures r.flexSensorRaw == d.flexSensorRaw
  {
    SetReading(d, ConditionMetric(i), ConditionValue(i))
  }

  /** The overwritten reading is never normal: 38.8 is critical, 35.2 a warning, mobility 25
      critical, cabin 16 and humidity 85 warnings. */
  lemma ConditionSeverities()
    ensures Classify(ConditionMetric(0), ConditionValue(0)) == Critical
    ensures Classify(ConditionMetric(1), ConditionValue(1)) == Warning
    ensures Classify(ConditionMetric(2), ConditionValue(2)) == Critical
    ensures Classify(ConditionMetric(3), ConditionValue(3)) == Warning
    ensures Classify(ConditionMetric(4), ConditionValue(4)) == Warning
  {
  }

  /** Whatever the other readings are, a critical condition raises an alert for the metric it
      overwrites, with the overwritten value's severity as priority. */
  lemma CriticalOverrideRaisesAlert(d: Snapshot, i: nat)
    requires Complete(d) && i < ConditionCount
    ensures Complete(CriticalOverride(d, i))
    ensures DeriveAlerts(CriticalOverride(d, i)).Success?
    ensures exists k :: 0 <= k < |DeriveAlerts(CriticalOverride(d, i)).value| &&
              DeriveAlerts(CriticalOverride(d, i)).value[k].Metric() == ConditionMetric(i) &&
              DeriveAlerts(CriticalOverride(d, i)).value[k].priority != Normal
  {
    var r := CriticalOverride(d, i);
    var m := ConditionMetric(i);
    assert forall n :: Reading(r, n).Some? by {
      forall n ensures Reading(r, n).Some? {
        if n != m { assert Reading(d, n).Some?; }
      }
    }
    ConditionSeverities();
    assert Status(r, m) != Normal;
    AlertsOrderedPerMetric(r, m);
    AlertsAreAbnormalMetrics(r);
  }

  /** The snapshot of one simulation step before any critical condition: body and cabin
      temperature as drawn, the other three clamped to their ranges. */
  function Clamped(raw: RawReadings): Snapshot
  {
    Snapshot(
      Some(raw.bodyTemperature),
      Some(Clamp(0.0, MaxPercent, raw.jointMobility)),
      Some(raw.cabinTemperature),
      Some(Clamp(0.0, MaxPercent, raw.humidity)),
      Some(Clamp(0.0, MaxFlexCount, raw.flexSensorRaw)))
  }

  /** pick is None when no critical condition is simulated this step (the 95% case), and the
      index of the chosen condition otherwise. */
  predicate ValidPick(pick: Option<nat>)
  {
    pick.Some? ==> pick.value < ConditionCount
  }

  /** One simulation step. Every reading is set, and mobility, humidity and the flex count lie in
      their ranges for every draw; without a critical condition body and cabin temperature are
      taken as drawn and in-range draws pass the clamps unchanged. */
  function Synthesize(raw: RawReadings, pick: Option<nat>): (r: Snapshot)
    requires ValidPick(pick)
    ensures Complete(r) && r.flexSensorRaw.Some?
    ensures r.jointMobility.Some? && 0.0 <= r.jointMobility.value <= MaxPercent
    ensures r.humidity.Some? && 0.0 <= r.humidity.value <= MaxPercent
    ensures 0.0 <= r.flexSensorRaw.value <= MaxFlexCount
    ensures pick.None? ==> r.bodyTemperature == Some(raw.bodyTemperature)
    ensures pick.None? ==> r.cabinTemperature == Some(raw.cabinTemperature)
    ensures pick.None? && 0.0 <= raw.jointMobility <= MaxPercent ==> r.jointMobility == Some(raw.jointMobility)
    ensures pick.None? && 0.0 <= raw.humidity <= MaxPercent ==> r.humidity == Some(raw.humidity)
    ensures 0.0 <= raw.flexSensorRaw <= MaxFlexCount ==> r.flexSensorRaw == Some(raw.flexSensorRaw)
    ensures pick.None? ==> r.jointMobility == Some(Clamp(0.0, MaxPercent, raw.jointMobility))
    ensures pick.None? ==> r.humidity == Some(Clamp(0.0, MaxPercent, raw.humidity))
    ensures r.flexSensorRaw == Some(Clamp(0.0, MaxFlexCount, raw.flexSensorRaw))
  {
    var base := Clamped(raw);
    assert Complete(base) by {
      forall m ensures Reading(base, m).Some? { }
    }
    if pick.None? then base
    else
      var r := CriticalOverride(base, pick.value);
      assert forall m :: Reading(r, m).Some? by {
        forall m ensures Reading(r, m).Some? {
          if m != ConditionMetric(pick.value) { assert Reading(base, m).Some?; }
        }
      }
      assert ConditionMetric(pick.value) == JointMobility ==> ConditionValue(pick.value) == 25.0;
      assert ConditionMetric(pick.value) == Humidity ==> ConditionValue(pick.value) == 85.0;
      assert r.jointMobility == Reading(r, JointMobility) && r.humidity == Reading(r, Humidity);
      r
  }

  /** A step with a critical condition is the plain step with that condition applied on top. */
  lemma SynthesizeWithCondition(raw: RawReadings, i: nat)
    requires i < ConditionCount
    ensures Synthesize(raw, Some(i)) == CriticalOverride(Synthesize(raw, None), i)
  {
  }
}
