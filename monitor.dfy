/** The monitoring system object: the readings it holds, the current alert list, and the steps
    that change them (a simulation step, a critical condition, an alert check, an externally
    received update). */
module Monitor {
  import opened Telemetry
  import opened Classifier
  import opened Synthesizer

  class MedicalMonitoringSystem {
    var data: Snapshot
    var alerts: seq<Alert>
    var isConnected: bool

    /** Construction starts with every reading null and no alert, then runs the first simulation
        step, which renders the display but does not check alerts. */
    constructor (raw: RawReadings, pick: Option<nat>)
      requires ValidPick(pick)
      ensures data == Synthesize(raw, pick)
      ensures alerts == [] && isConnected
    {
      data := Unset;
      alerts := [];
      isConnected := true;
      new;
      GenerateSimulatedData(raw, pick);
    }

    /** Overwrites the five readings one after the other, clamping mobility, humidity and the
        flex count, then possibly applies a critical condition. */
    method GenerateSimulatedData(raw: RawReadings, pick: Option<nat>)
      requires ValidPick(pick)
      modifies this`data
      ensures data == Synthesize(raw, pick)
    {
      data := data.(bodyTemperature := Some(raw.bodyTemperature));

      data := data.(jointMobility := Some(raw.jointMobility));
      data := data.(jointMobility := Some(Clamp(0.0, MaxPercent, data.jointMobility.value)));

      data := data.(cabinTemperature := Some(raw.cabinTemperature));

      data := data.(humidity := Some(raw.humidity));
      data := data.(humidity := Some(Clamp(0.0, MaxPercent, data.humidity.value)));

      data := data.(flexSensorRaw := Some(raw.flexSensorRaw));
      data := data.(flexSensorRaw := Some(Clamp(0.0, MaxFlexCount, data.flexSensorRaw.value)));

      if pick.Some? {
        SimulateCriticalCondition(pick.value);
      }
    }

    /** Runs the i-th of the five fixed conditions, each of which writes one reading. */
    method SimulateCriticalCondition(i: nat)
      requires i < ConditionCount
      modifies this`data
      ensures data == CriticalOverride(old(data), i)
    {
      if i == 0 {
        data := data.(bodyTemperature := Some(38.8));   // high fever
      } else if i == 1 {
        data := data.(bodyTemperature := Some(35.2));   // hypothermia
      } else if i == 2 {
        data := data.(jointMobility := Some(25.0));     // reduced mobility
      } else if i == 3 {
        data := data.(cabinTemperature := Some(16.0));  // cold cabin
      } else {
        data := data.(humidity := Some(85.0));          // high humidity
      }
    }

    /** Builds a fresh alert list metric by metric and replaces the held one with it. A null
        classified reading aborts the check at that metric (the result is Failure) and leaves the
        held list as it was. */
    method CheckAlerts() returns (r: Result<seq<Alert>, Metric>)
      modifies this`alerts
      ensures r == DeriveAlerts(data)
      ensures r.Success? ==> alerts == r.value
      ensures r.Failure? ==> alerts == old(alerts)
    {
      var newAlerts: seq<Alert> := [];

      if data.bodyTemperature.None? {
        return Failure(BodyTemperature);
      }
      var body := BodyTemperatureAlert(data.bodyTemperature.value);
      if body.Some? {
        newAlerts := newAlerts + [body.value];
      }
      assert newAlerts == AsList(body);

      if data.jointMobility.None? {
        return Failure(JointMobility);
      }
      var mobility := MobilityAlert(data.jointMobility.value);
      if mobility.Some? {
        newAlerts := newAlerts + [mobility.value];
      }
      assert newAlerts == AsList(body) + AsList(mobility);

      if data.cabinTemperature.None? {
        return Failure(CabinTemperature);
      }
      var cabin := CabinTemperatureAlert(data.cabinTemperature.value);
      if cabin.Some? {
        newAlerts := newAlerts + [cabin.value];
      }
      assert newAlerts == AsList(body) + AsList(mobility) + AsList(cabin);

      if data.humidity.None? {
        return Failure(Humidity);
      }
      var humidity := HumidityAlert(data.humidity.value);
      if humidity.Some? {
        newAlerts := newAlerts + [humidity.value];
      }
      assert newAlerts == AsList(body) + AsList(mobility) + AsList(cabin) + AsList(humidity);

      alerts := newAlerts;
      r := Success(newAlerts);
    }

    /** Merges a partial update into the held readings, then checks alerts. */
    method ReceiveDataFromESP32(u: Update) returns (r: Result<seq<Alert>, Metric>)
      modifies this`data, this`alerts
      ensures data == Merge(old(data), u)
      ensures r == DeriveAlerts(data)
      ensures alerts == if r.Success? then r.value else old(alerts)
    {
      data := Merge(data, u);
      r := CheckAlerts();
    }

    /** One periodic cycle: a simulation step, then an alert check. The new alert list is that of
        the new readings alone, whatever the list was before. */
    method Tick(raw: RawReadings, pick: Option<nat>)
      requires ValidPick(pick)
      modifies this`data, this`alerts
      ensures data == Synthesize(raw, pick)
      ensures DeriveAlerts(data).Success? && alerts == DeriveAlerts(data).value
    {
      GenerateSimulatedData(raw, pick);
      var r := CheckAlerts();
    }
  }

  /** A critical reading followed by a full nominal update leaves no alert behind. */
  method CriticalThenNominal(s: MedicalMonitoringSystem)
    modifies s
    ensures s.alerts == []
  {
    var fever := s.ReceiveDataFromESP32(Update(Given(Some(38.8)), Absent, Absent, Absent, Absent));
    var nominal := s.ReceiveDataFromESP32(
      Update(Given(Some(36.8)), Given(Some(80.0)), Given(Some(22.0)), Given(Some(50.0)), Given(Some(600.0))));
    assert s.data == Snapshot(Some(36.8), Some(80.0), Some(22.0), Some(50.0), Some(600.0));
    Examples();
  }
}
