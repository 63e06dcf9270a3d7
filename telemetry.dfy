/** The readings the monitor holds and the partial updates an external sensor link may supply. */
module Telemetry {

  datatype Option<+T> = None | Some(value: T)

  datatype Result<+T, +E> = Success(value: T) | Failure(error: E)

  /** The four metrics that are classified, in the fixed order in which they are checked.
      The raw flex-sensor reading is stored but never classified. */
  datatype Metric = BodyTemperature | JointMobility | CabinTemperature | Humidity

  /** Position of a metric in the evaluation order. */
  function Position(m: Metric): (p: nat)
    ensures p < |EvaluationOrder| && EvaluationOrder[p] == m
  {
    match m
    case BodyTemperature => 0
    case JointMobility => 1
    case CabinTemperature => 2
    case Humidity => 3
  }

  const EvaluationOrder: seq<Metric> := [BodyTemperature, JointMobility, CabinTemperature, Humidity]

  /** A snapshot of the five readings; None stands for a reading that is null (not yet set). */
  datatype Snapshot = Snapshot(
    bodyTemperature: Option<real>,   // degrees Celsius
    jointMobility: Option<real>,     // percent
    cabinTemperature: Option<real>,  // degrees Celsius
    humidity: Option<real>,          // percent
    flexSensorRaw: Option<real>)     // 12-bit ADC count

  /** The state the monitor starts from: every reading null. */
  const Unset := Snapshot(None, None, None, None, None)

  function Reading(d: Snapshot, m: Metric): Option<real>
  {
    match m
    case BodyTemperature => d.bodyTemperature
    case JointMobility => d.jointMobility
    case CabinTemperature => d.cabinTemperature
    case Humidity => d.humidity
  }

  /** All four classified readings are set. */
  predicate Complete(d: Snapshot)
  {
    forall m :: Reading(d, m).Some?
  }

  /** One field of a partial update: either the key is absent, or it is given a value
      (which may itself be null). */
  datatype Supplied = Absent | Given(reading: Option<real>)

  datatype Update = Update(
    bodyTemperature: Supplied,
    jointMobility: Supplied,
    cabinTemperature: Supplied,
    humidity: Supplied,
    flexSensorRaw: Supplied)

  /** The update with no key at all. */
  const NoUpdate := Update(Absent, Absent, Absent, Absent, Absent)

  function Overlay(current: Option<real>, s: Supplied): Option<real>
  {
    if s.Given? then s.reading else current
  }

  /** Object spread `{ ...d, ...u }`: every field the update supplies replaces the held one,
      every other field is kept. */
  function Merge(d: Snapshot, u: Update): (r: Snapshot)
    ensures u.bodyTemperature.Given? ==> r.bodyTemperature == u.bodyTemperature.reading
    ensures u.bodyTemperature.Absent? ==> r.bodyTemperature == d.bodyTemperature
    ensures u.jointMobility.Given? ==> r.jointMobility == u.jointMobility.reading
    ensures u.jointMobility.Absent? ==> r.jointMobility == d.jointMobility
    ensures u.cabinTemperature.Given? ==> r.cabinTemperature == u.cabinTemperature.reading
    ensures u.cabinTemperature.Absent? ==> r.cabinTemperature == d.cabinTemperature
    ensures u.humidity.Given? ==> r.humidity == u.humidity.reading
    ensures u.humidity.Absent? ==> r.humidity == d.humidity
    ensures u.flexSensorRaw.Given? ==> r.flexSensorRaw == u.flexSensorRaw.reading
    ensures u.flexSensorRaw.Absent? ==> r.flexSensorRaw == d.flexSensorRaw
  {
    Snapshot(
      Overlay(d.bodyTemperature, u.bodyTemperature),
      Overlay(d.jointMobility, u.jointMobility),
      Overlay(d.cabinTemperature, u.cabinTemperature),
      Overlay(d.humidity, u.humidity),
      Overlay(d.flexSensorRaw, u.flexSensorRaw))
  }

  /** Two updates received one after the other, as one update: the later one wins per key. */
  function Then(first: Update, second: Update): Update
  {
    Update(
      if second.bodyTemperature.Given? then second.bodyTemperature else first.bodyTemperature,
      if second.jointMobility.Given? then second.jointMobility else first.jointMobility,
      if second.cabinTemperature.Given? then second.cabinTemperature else first.cabinTemperature,
      if second.humidity.Given? then second.humidity else first.humidity,
      if second.flexSensorRaw.Given? then second.flexSensorRaw else first.flexSensorRaw)
  }

  /** An update that supplies nothing leaves the snapshot as it is. */
  lemma MergeNothing(d: Snapshot)
    ensures Merge(d, NoUpdate) == d
  {
  }

  /** Receiving the same update twice is the same as receiving it once. */
  lemma MergeIdempotent(d: Snapshot, u: Update)
    ensures Merge(Merge(d, u), u) == Merge(d, u)
  {
  }

  /** Receiving two updates in turn is receiving their combination once. */
  lemma MergeThen(d: Snapshot, first: Update, second: Update)
    ensures Merge(Merge(d, first), second) == Merge(d, Then(first, second))
  {
  }

  /** An update that supplies all five keys determines the snapshot whatever was held before. */
  lemma MergeFullUpdate(d1: Snapshot, d2: Snapshot, u: Update)
    requires u.bodyTemperature.Given? && u.jointMobility.Given? && u.cabinTemperature.Given?
    requires u.humidity.Given? && u.flexSensorRaw.Given?
    ensures Merge(d1, u) == Merge(d2, u)
  {
  }
}
