/** Classification of readings into severities, and the alert list built from a snapshot. */
module Classifier {
  import opened Telemetry

  datatype Severity = Normal | Warning | Critical

  /** The total order normal < warning < critical. */
  function Level(s: Severity): (n: nat)
    ensures n <= 2
    ensures (n == 0) == (s == Normal) && (n == 2) == (s == Critical)
  {
    match s
    case Normal => 0
    case Warning => 1
    case Critical => 2
  }

  // ---------------------------------------------------------------------------------------------
  // The status chains the display renders for each metric

  /** Critical at or beyond 38.5 and at or below 35.0; normal on the closed band [36.1, 37.2];
      a warning in between. */
  function BodyTemperatureStatus(t: real): (s: Severity)
    ensures s == Critical <==> t >= 38.5 || t <= 35.0
    ensures s == Warning <==> (35.0 < t < 36.1) || (37.2 < t < 38.5)
    ensures s == Normal <==> 36.1 <= t <= 37.2
  {
    if t >= 38.5 then Critical
    else if t <= 35.0 then Critical
    else if t < 36.1 || t > 37.2 then Warning
    else Normal
  }

  /** Critical strictly below 30, a warning on [30, 50), normal from 50 upwards. */
  function MobilityStatus(m: real): (s: Severity)
    ensures s == Critical <==> m < 30.0
    ensures s == Warning <==> 30.0 <= m < 50.0
    ensures s == Normal <==> m >= 50.0
  {
    if m < 30.0 then Critical
    else if m < 50.0 then Warning
    else Normal
  }

  /** Never critical; normal on the closed band [18, 25]. */
  function CabinTemperatureStatus(c: real): (s: Severity)
    ensures s != Critical
    ensures s == Normal <==> 18.0 <= c <= 25.0
  {
    if c < 18.0 || c > 25.0 then Warning else Normal
  }

  /** Never critical; normal on the closed band [30, 70]. */
  function HumidityStatus(h: real): (s: Severity)
    ensures s != Critical
    ensures s == Normal <==> 30.0 <= h <= 70.0
  {
    if h < 30.0 || h > 70.0 then Warning else Normal
  }

  function Classify(m: Metric, v: real): Severity
  {
    match m
    case BodyTemperature => BodyTemperatureStatus(v)
    case JointMobility => MobilityStatus(v)
    case CabinTemperature => CabinTemperatureStatus(v)
    case Humidity => HumidityStatus(v)
  }

  /** The status shown for a metric; a null reading leaves its card untouched. */
  function DisplayStatus(d: Snapshot, m: Metric): (r: Option<Severity>)
    ensures r.None? <==> Reading(d, m).None?
    ensures r.Some? && r.value == Critical ==> m == BodyTemperature || m == JointMobility
  {
    if Reading(d, m).Some? then Some(Classify(m, Reading(d, m).value)) else None
  }

  /** The status the display shows for a metric of a snapshot whose classified readings are all
      set; the alert lemmas below are stated in terms of it. */
  function Status(d: Snapshot, m: Metric): Severity
    requires Complete(d)
  {
    DisplayStatus(d, m).value
  }

  /** A lower mobility is never less severe. */
  lemma MobilityStatusAntitone(m1: real, m2: real)
    requires m1 <= m2
    ensures Level(MobilityStatus(m2)) <= Level(MobilityStatus(m1))
  {
  }

  /** Moving a body temperature further away from the normal band never lowers its severity. */
  lemma BodyTemperatureStatusMonotone(t1: real, t2: real)
    ensures 37.2 <= t1 <= t2 ==> Level(BodyTemperatureStatus(t1)) <= Level(BodyTemperatureStatus(t2))
    ensures t2 <= t1 <= 36.1 ==> Level(BodyTemperatureStatus(t1)) <= Level(BodyTemperatureStatus(t2))
  {
  }

  // ---------------------------------------------------------------------------------------------
  // Alerts

  /** The alert types the monitor raises; titles, messages and times are presentation. */
  datatype AlertType =
    | CriticalFever
    | CriticalHypothermia
    | AbnormalBodyTemperature
    | ReducedJointMobility
    | SuboptimalCabinTemperature
    | SuboptimalCabinHumidity

  datatype Alert = Alert(kind: AlertType, priority: Severity)
  {
    /** The metric an alert is about. */
    function Metric(): Metric
    {
      match kind
      case CriticalFever => BodyTemperature
      case CriticalHypothermia => BodyTemperature
      case AbnormalBodyTemperature => BodyTemperature
      case ReducedJointMobility => JointMobility
      case SuboptimalCabinTemperature => CabinTemperature
      case SuboptimalCabinHumidity => Humidity
    }
  }

  /** A fever alert at or above 38.5, a hypothermia alert at or below 35.0, a warning outside
      [36.1, 37.2] otherwise, nothing inside it. */
  function BodyTemperatureAlert(t: real): (a: Option<Alert>)
    ensures a.None? <==> 36.1 <= t <= 37.2
    ensures a == Some(Alert(CriticalFever, Critical)) <==> t >= 38.5
    ensures a == Some(Alert(CriticalHypothermia, Critical)) <==> t <= 35.0
    ensures a == Some(Alert(AbnormalBodyTemperature, Warning)) <==> (35.0 < t < 36.1) || (37.2 < t < 38.5)
    ensures a.Some? ==> a.value.Metric() == BodyTemperature
  {
    if t >= 38.5 then Some(Alert(CriticalFever, Critical))
    else if t <= 35.0 then Some(Alert(CriticalHypothermia, Critical))
    else if t < 36.1 || t > 37.2 then Some(Alert(AbnormalBodyTemperature, Warning))
    else None
  }

  /** A reduced-mobility alert below 50, critical below 30. */
  function MobilityAlert(m: real): (a: Option<Alert>)
    ensures a.None? <==> m >= 50.0
    ensures a.Some? ==> a.value.kind == ReducedJointMobility
    ensures a.Some? ==> (a.value.priority == Critical <==> m < 30.0)
  {
    if m < 30.0 then Some(Alert(ReducedJointMobility, Critical))
    else if m < 50.0 then Some(Alert(ReducedJointMobility, Warning))
    else None
  }

  /** A warning outside [18, 25]. */
  function CabinTemperatureAlert(c: real): (a: Option<Alert>)
    ensures a.None? <==> 18.0 <= c <= 25.0
    ensures a.Some? ==> a.value == Alert(SuboptimalCabinTemperature, Warning)
  {
    if c < 18.0 || c > 25.0 then Some(Alert(SuboptimalCabinTemperature, Warning)) else None
  }

  /** A warning outside [30, 70]. */
  function HumidityAlert(h: real): (a: Option<Alert>)
    ensures a.None? <==> 30.0 <= h <= 70.0
    ensures a.Some? ==> a.value == Alert(SuboptimalCabinHumidity, Warning)
  {
    if h < 30.0 || h > 70.0 then Some(Alert(SuboptimalCabinHumidity, Warning)) else None
  }

  function MetricAlert(m: Metric, v: real): Option<Alert>
  {
    match m
    case BodyTemperature => BodyTemperatureAlert(v)
    case JointMobility => MobilityAlert(v)
    case CabinTemperature => CabinTemperatureAlert(v)
    case Humidity => HumidityAlert(v)
  }

  /** The thresholds are written twice, once for the display and once for the alerts; the two
      agree: a metric raises an alert exactly when its status is not normal, and the alert's
      priority is that status. */
  lemma AlertAgreesWithStatus(m: Metric, v: real)
    ensures MetricAlert(m, v).None? <==> Classify(m, v) == Normal
    ensures MetricAlert(m, v).Some? ==>
              MetricAlert(m, v).value.priority == Classify(m, v) && MetricAlert(m, v).value.Metric() == m
  {
  }

  /** A shown status is normal exactly when the alert check raises nothing for that reading,
      and otherwise it is the priority of the alert raised. */
  lemma DisplayAgreesWithAlert(d: Snapshot, m: Metric)
    requires Reading(d, m).Some?
    ensures DisplayStatus(d, m).Some?
    ensures DisplayStatus(d, m).value == Normal <==> MetricAlert(m, Reading(d, m).value).None?
    ensures MetricAlert(m, Reading(d, m).value).Some? ==>
              MetricAlert(m, Reading(d, m).value).value.priority == DisplayStatus(d, m).value
  {
    AlertAgreesWithStatus(m, Reading(d, m).value);
  }

  function AsList(a: Option<Alert>): seq<Alert>
  {
    if a.Some? then [a.value] else []
  }

  /** The alert list of one check. A null reading among the four classified ones makes the
      check fail at the first such metric in evaluation order, before any list is produced. */
  function DeriveAlerts(d: Snapshot): (r: Result<seq<Alert>, Metric>)
    ensures r.Failure? <==> !Complete(d)
    ensures r.Failure? ==> Reading(d, r.error).None?
    ensures r.Failure? ==> forall m :: Position(m) < Position(r.error) ==> Reading(d, m).Some?
    ensures r.Success? ==> |r.value| <= 4
  {
    if d.bodyTemperature.None? then
      assert Reading(d, BodyTemperature).None?;
      Failure(BodyTemperature)
    else if d.jointMobility.None? then
      assert Reading(d, JointMobility).None?;
      Failure(JointMobility)
    else if d.cabinTemperature.None? then
      assert Reading(d, CabinTemperature).None?;
      Failure(CabinTemperature)
    else if d.humidity.None? then
      assert Reading(d, Humidity).None?;
      Failure(Humidity)
    else
      Success(AsList(BodyTemperatureAlert(d.bodyTemperature.value))
              + AsList(MobilityAlert(d.jointMobility.value))
              + AsList(CabinTemperatureAlert(d.cabinTemperature.value))
              + AsList(HumidityAlert(d.humidity.value)))
  }

  // ---------------------------------------------------------------------------------------------
  // A reference definition of the alert list: the abnormal metrics, in evaluation order

  /** The metric itself when its status is not normal, nothing otherwise. */
  function Flagged(d: Snapshot, m: Metric): seq<Metric>
    requires Complete(d)
  {
    if Status(d, m) != Normal then [m] else []
  }

  /** The metrics of ms whose status is not normal, in the order of ms. */
  function Abnormal(d: Snapshot, ms: seq<Metric>): (r: seq<Metric>)
    requires Complete(d)
    ensures |r| <= |ms|
    ensures forall m :: m in r <==> m in ms && Status(d, m) != Normal
  {
    if ms == [] then [] else Flagged(d, ms[0]) + Abnormal(d, ms[1..])
  }

  predicate InOrder(ms: seq<Metric>)
  {
    forall i, j :: 0 <= i < j < |ms| ==> Position(ms[i]) < Position(ms[j])
  }

  /** Filtering keeps the evaluation order. */
  lemma {:induction false} AbnormalInOrder(d: Snapshot, ms: seq<Metric>)
    requires Complete(d) && InOrder(ms)
    ensures InOrder(Abnormal(d, ms))
  {
    if ms != [] {
      AbnormalInOrder(d, ms[1..]);
      var rest := Abnormal(d, ms[1..]);
      forall k | 0 <= k < |rest|
        ensures Position(ms[0]) < Position(rest[k])
      {
        assert rest[k] in ms[1..];
      }
    }
  }

  /** The abnormal metrics of the evaluation order, written out. */
  lemma AbnormalInEvaluationOrder(d: Snapshot)
    requires Complete(d)
    ensures Abnormal(d, EvaluationOrder)
            == Flagged(d, BodyTemperature) + Flagged(d, JointMobility) + Flagged(d, CabinTemperature) + Flagged(d, Humidity)
  {
    assert EvaluationOrder == [BodyTemperature, JointMobility, CabinTemperature, Humidity];
    AbnormalOfFour(d, BodyTemperature, JointMobility, CabinTemperature, Humidity);
  }

  lemma AbnormalOfFour(d: Snapshot, a: Metric, b: Metric, c: Metric, e: Metric)
    requires Complete(d)
    ensures Abnormal(d, [a, b, c, e]) == Flagged(d, a) + Flagged(d, b) + Flagged(d, c) + Flagged(d, e)
  {
    assert Abnormal(d, []) == [];
    AbnormalCons(d, e, []);
    AbnormalCons(d, c, [e]);
    AbnormalCons(d, b, [c, e]);
    AbnormalCons(d, a, [b, c, e]);
    assert [a] + [b, c, e] == [a, b, c, e];
    Regroup(Flagged(d, a), Flagged(d, b), Flagged(d, c), Flagged(d, e));
  }

  lemma Regroup(a: seq<Metric>, b: seq<Metric>, c: seq<Metric>, e: seq<Metric>)
    ensures a + (b + (c + (e + []))) == a + b + c + e
  {
    assert e + [] == e;
  }

  lemma AbnormalCons(d: Snapshot, m: Metric, ms: seq<Metric>)
    requires Complete(d)
    ensures Abnormal(d, [m] + ms) == Flagged(d, m) + Abnormal(d, ms)
  {
    assert ([m] + ms)[1..] == ms;
  }

  /** alerts[i] is the alert of ms[i], with that metric's status as priority, for every i. */
  predicate Matches(d: Snapshot, alerts: seq<Alert>, ms: seq<Metric>)
    requires Complete(d)
  {
    |alerts| == |ms| &&
    forall i :: 0 <= i < |alerts| ==> alerts[i].Metric() == ms[i] && alerts[i].priority == Status(d, ms[i])
  }

  lemma MatchesConcat(d: Snapshot, a1: seq<Alert>, m1: seq<Metric>, a2: seq<Alert>, m2: seq<Metric>)
    requires Complete(d) && Matches(d, a1, m1) && Matches(d, a2, m2)
    ensures Matches(d, a1 + a2, m1 + m2)
  {
    forall i | 0 <= i < |a1 + a2|
      ensures (a1 + a2)[i].Metric() == (m1 + m2)[i] && (a1 + a2)[i].priority == Status(d, (m1 + m2)[i])
    {
      if i >= |a1| {
        assert (a1 + a2)[i] == a2[i - |a1|] && (m1 + m2)[i] == m2[i - |m1|];
      }
    }
  }

  lemma MetricMatches(d: Snapshot, m: Metric)
    requires Complete(d)
    ensures Matches(d, AsList(MetricAlert(m, Reading(d, m).value)), Flagged(d, m))
  {
    AlertAgreesWithStatus(m, Reading(d, m).value);
  }

  /** The alert list is exactly one alert per abnormal metric, in evaluation order, each
      carrying the metric's display status as its priority. */
  lemma AlertsAreAbnormalMetrics(d: Snapshot)
    requires Complete(d)
    ensures DeriveAlerts(d).Success?
    ensures |DeriveAlerts(d).value| == |Abnormal(d, EvaluationOrder)|
    ensures forall i :: 0 <= i < |DeriveAlerts(d).value| ==>
              DeriveAlerts(d).value[i].Metric() == Abnormal(d, EvaluationOrder)[i] &&
              DeriveAlerts(d).value[i].priority == Status(d, Abnormal(d, EvaluationOrder)[i])
  {
    assert Reading(d, BodyTemperature).Some? && Reading(d, JointMobility).Some?;
    assert Reading(d, CabinTemperature).Some? && Reading(d, Humidity).Some?;
    var a := AsList(MetricAlert(BodyTemperature, d.bodyTemperature.value));
    var b := AsList(MetricAlert(JointMobility, d.jointMobility.value));
    var c := AsList(MetricAlert(CabinTemperature, d.cabinTemperature.value));
    var h := AsList(MetricAlert(Humidity, d.humidity.value));
    assert DeriveAlerts(d).value == a + b + c + h;
    MetricMatches(d, BodyTemperature);
    MetricMatches(d, JointMobility);
    MetricMatches(d, CabinTemperature);
    MetricMatches(d, Humidity);
    var ma, mb, mc, mh := Flagged(d, BodyTemperature), Flagged(d, JointMobility), Flagged(d, CabinTemperature), Flagged(d, Humidity);
    MatchesConcat(d, a, ma, b, mb);
    MatchesConcat(d, a + b, ma + mb, c, mc);
    MatchesConcat(d, a + b + c, ma + mb + mc, h, mh);
    AbnormalInEvaluationOrder(d);
  }

  /** The abnormal metrics of the evaluation order are ordered and hold every abnormal metric. */
  lemma AbnormalMetricsOfCheck(d: Snapshot)
    requires Complete(d)
    ensures InOrder(Abnormal(d, EvaluationOrder))
    ensures forall n :: n in Abnormal(d, EvaluationOrder) <==> Status(d, n) != Normal
  {
    AbnormalInOrder(d, EvaluationOrder);
    forall n ensures n in EvaluationOrder {
      assert n == EvaluationOrder[Position(n)];
    }
  }

  /** A list of alerts matching an ordered list of metrics, which holds exactly the abnormal
      ones, is ordered, has an alert for a metric iff it is abnormal, and carries its status. */
  lemma MatchedAlertsOrdered(d: Snapshot, r: seq<Alert>, ms: seq<Metric>, m: Metric)
    requires Complete(d) && Matches(d, r, ms) && InOrder(ms)
    requires forall n :: n in ms <==> Status(d, n) != Normal
    ensures forall i, j :: 0 <= i < j < |r| ==> Position(r[i].Metric()) < Position(r[j].Metric())
    ensures (exists i :: 0 <= i < |r| && r[i].Metric() == m) <==> Status(d, m) != Normal
    ensures forall i :: 0 <= i < |r| && r[i].Metric() == m ==> r[i].priority == Status(d, m)
  {
    forall i, j | 0 <= i < j < |r|
      ensures Position(r[i].Metric()) < Position(r[j].Metric())
    {
      assert r[i].Metric() == ms[i] && r[j].Metric() == ms[j];
    }
    forall i | 0 <= i < |r| && r[i].Metric() == m
      ensures Status(d, m) != Normal
    {
      assert ms[i] == m && ms[i] in ms;
    }
    if Status(d, m) != Normal {
      assert m in ms;
      var i :| 0 <= i < |ms| && ms[i] == m;
      assert r[i].Metric() == m;
    }
  }

  /** The alert list is in evaluation order with at most one alert per metric, and a metric has
      an alert exactly when its status is not normal. */
  lemma AlertsOrderedPerMetric(d: Snapshot, m: Metric)
    requires Complete(d)
    ensures DeriveAlerts(d).Success?
    ensures forall i, j :: 0 <= i < j < |DeriveAlerts(d).value| ==>
              Position(DeriveAlerts(d).value[i].Metric()) < Position(DeriveAlerts(d).value[j].Metric())
    ensures (exists i :: 0 <= i < |DeriveAlerts(d).value| && DeriveAlerts(d).value[i].Metric() == m)
            <==> Status(d, m) != Normal
    ensures forall i :: 0 <= i < |DeriveAlerts(d).value| && DeriveAlerts(d).value[i].Metric() == m ==>
              DeriveAlerts(d).value[i].priority == Status(d, m)
  {
    AlertsAreAbnormalMetrics(d);
    var ms := Abnormal(d, EvaluationOrder);
    var r := DeriveAlerts(d).value;
    assert Matches(d, r, ms);
    AbnormalMetricsOfCheck(d);
    MatchedAlertsOrdered(d, r, ms, m);
  }

  /** A check of a complete snapshot yields no alert exactly when every metric is normal; in
      particular the list never carries alerts over from an earlier check. */
  lemma NoAlertsIffNominal(d: Snapshot)
    requires Complete(d)
    ensures DeriveAlerts(d) == Success([]) <==> forall m :: Status(d, m) == Normal
  {
    AlertsAreAbnormalMetrics(d);
    AbnormalMetricsOfCheck(d);
    var ms := Abnormal(d, EvaluationOrder);
    if exists m :: Status(d, m) != Normal {
      var m :| Status(d, m) != Normal;
      assert m in ms;
      assert |DeriveAlerts(d).value| == |ms| > 0;
    } else {
      assert Status(d, BodyTemperature) == Normal && Status(d, JointMobility) == Normal;
      assert Status(d, CabinTemperature) == Normal && Status(d, Humidity) == Normal;
    }
  }

  /** The flex-sensor reading never takes part in a check. */
  lemma AlertsIgnoreFlexSensor(d: Snapshot, v: Option<real>)
    ensures DeriveAlerts(d.(flexSensorRaw := v)) == DeriveAlerts(d)
  {
  }

  /** Boundary values of the thresholds and sample snapshots with their alert lists. */
  lemma Examples()
    ensures BodyTemperatureStatus(38.5) == Critical && BodyTemperatureStatus(35.0) == Critical
    ensures BodyTemperatureStatus(36.1) == Normal && BodyTemperatureStatus(37.2) == Normal
    ensures BodyTemperatureStatus(35.00001) == Warning
    ensures MobilityStatus(30.0) == Warning && MobilityStatus(29.999) == Critical
    ensures DeriveAlerts(Snapshot(Some(36.8), Some(80.0), Some(22.0), Some(50.0), Some(600.0))) == Success([])
    ensures DeriveAlerts(Snapshot(Some(38.8), Some(80.0), Some(22.0), Some(50.0), Some(600.0)))
            == Success([Alert(CriticalFever, Critical)])
    ensures DeriveAlerts(Snapshot(Some(36.8), Some(80.0), Some(16.0), Some(85.0), Some(600.0)))
            == Success([Alert(SuboptimalCabinTemperature, Warning), Alert(SuboptimalCabinHumidity, Warning)])
  {
    assert [Alert(CriticalFever, Critical)] + [] + [] + [] == [Alert(CriticalFever, Critical)];
    assert [] + [] + [Alert(SuboptimalCabinTemperature, Warning)] + [Alert(SuboptimalCabinHumidity, Warning)]
        == [Alert(SuboptimalCabinTemperature, Warning), Alert(SuboptimalCabinHumidity, Warning)];
  }
}
