# Space medical monitor: telemetry evaluator

A Dafny model of the evaluator inside `MedicalMonitoringSystem` (`script.js`). The dashboard holds
five readings: body temperature, joint mobility, cabin temperature, humidity and a raw flex-sensor
count. It classifies four of them as normal, warning or critical against fixed thresholds. It
keeps a list of alerts that each check rebuilds from scratch. The readings come from a simulator
(sine curves plus random jitter, clamped, with an occasional forced critical condition) or from
a partial update that an external sensor link supplies.

Modules:

- `Telemetry` (telemetry.dfy): the snapshot of five optional readings, the four classified
  metrics in their evaluation order, partial updates and the object-spread merge.
- `Classifier` (classifier.dfy): the severity chains that the display renders and the alert
  chains that the check uses. It holds `DeriveAlerts` (one check as a value) and a reference
  definition of the alert list: the abnormal metrics, in evaluation order.
- `Synthesizer` (synthesizer.dfy): `Math.max`/`Math.min` clamping, the five fixed critical
  conditions and one simulation step as a value.
- `Monitor` (monitor.dfy): the class `MedicalMonitoringSystem` with the fields `data`, `alerts`
  and `isConnected`. Its methods change the fields step by step, as the source does. Each method
  is proved equal to the matching function above.

Readings are exact `real` numbers, not IEEE doubles. A null reading is `None`. The sine terms,
the random draws and the clock become inputs. `RawReadings` holds the values drawn before
clamping. `pick` is `None` when no critical condition is simulated in a step. Otherwise it is
`Some(i)`, where `i` is the index `Math.floor(Math.random() * 5)`, so it is always below 5.

The source gives no null guard to the alert check. In JavaScript, `null <= 35.0`, `null < 30`
and `null < 18` are all true, so a null classified reading takes an alerting branch. The
following `.toFixed` call on null then throws before `this.alerts` is assigned. The model keeps
this behaviour instead of excluding it. `DeriveAlerts` returns `Failure(m)`, where `m` is the
first null metric in check order. `CheckAlerts` then leaves the held list unchanged. The display
step, in contrast, skips null readings.

One consequence is proved (`ConditionSeverities`): the second critical condition (35.2 °C,
commented as hypothermia) is only a warning. The hypothermia alert needs a reading of 35.0 or
below.

## Model

| member | source | states |
|---|---|---|
| `Telemetry.Merge` | script.js:315 | every key the update supplies replaces the held reading, even with null; every other reading is kept |
| `Telemetry.MergeNothing` | script.js:315 | an update with no key leaves the snapshot unchanged |
| `Telemetry.MergeIdempotent` | script.js:315 | receiving the same update twice equals receiving it once |
| `Telemetry.MergeThen` | script.js:315 | two updates in turn equal their per-key combination, in which the later update wins |
| `Telemetry.MergeFullUpdate` | script.js:315 | an update that supplies all five keys fixes the snapshot whatever was held before |
| `Classifier.BodyTemperatureStatus` | script.js:102-118 | critical iff t >= 38.5 or t <= 35.0; normal iff 36.1 <= t <= 37.2 (both bounds inclusive); warning iff strictly between those bands |
| `Classifier.MobilityStatus` | script.js:128-137 | critical iff m < 30; warning iff 30 <= m < 50 (so 30 is a warning); normal iff m >= 50 |
| `Classifier.CabinTemperatureStatus` | script.js:147-153 | never critical; normal iff 18 <= c <= 25 |
| `Classifier.HumidityStatus` | script.js:163-169 | never critical; normal iff 30 <= h <= 70 |
| `Classifier.DisplayStatus` | script.js:94-170 | a metric shows a status exactly when its reading is not null; only body temperature and mobility can show critical. The alert lemmas below are stated about this displayed status |
| `Classifier.DisplayAgreesWithAlert` | script.js:94-251 | a shown status is normal iff the alert check raises no alert for that reading, and otherwise it is the priority of the alert raised |
| `Classifier.MobilityStatusAntitone` | script.js:128-137 | a lower mobility is never less severe |
| `Classifier.BodyTemperatureStatusMonotone` | script.js:102-118 | above 37.2 severity never falls as the temperature rises; below 36.1 severity never falls as it drops |
| `Classifier.BodyTemperatureAlert` | script.js:187-211 | no alert iff 36.1 <= t <= 37.2; a critical fever alert iff t >= 38.5; a critical hypothermia alert iff t <= 35.0; an abnormal-body-temperature warning alert iff 35.0 < t < 36.1 or 37.2 < t < 38.5 |
| `Classifier.MobilityAlert` | script.js:214-230 | a reduced-mobility alert iff m < 50, critical iff m < 30 |
| `Classifier.CabinTemperatureAlert` | script.js:233-241 | a warning alert iff the cabin temperature is outside [18, 25] |
| `Classifier.HumidityAlert` | script.js:243-251 | a warning alert iff the humidity is outside [30, 70] |
| `Classifier.AlertAgreesWithStatus` | script.js:102-251 | the two copies of the thresholds agree: a metric alerts iff its display status is not normal, and the alert's priority is that status |
| `Classifier.DeriveAlerts` | script.js:183-251 | the check fails iff a classified reading is null, naming the first null one in check order; otherwise at most four alerts |
| `Classifier.Abnormal` | script.js:183-251 | the metrics of a list whose status is not normal, as a reference for the alert list: no more than the input, and a metric is in it iff it is in the input and not normal |
| `Classifier.AbnormalInOrder` | script.js:183-251 | the abnormal metrics keep the evaluation order |
| `Classifier.AlertsAreAbnormalMetrics` | script.js:183-251 | the alert list has one alert per abnormal metric, in the order body temperature, mobility, cabin temperature, humidity, each with the metric's status as priority; its length is the number of abnormal metrics |
| `Classifier.AlertsOrderedPerMetric` | script.js:183-251 | the alerts are strictly in evaluation order, so there is at most one per metric; a metric has an alert iff its status is not normal, with that status as priority |
| `Classifier.NoAlertsIffNominal` | script.js:183-254 | a check of a complete snapshot gives an empty list iff every metric is normal, whatever the earlier list was |
| `Classifier.AlertsIgnoreFlexSensor` | script.js:183-251 | the flex-sensor reading never affects a check |
| `Classifier.Examples` | script.js:102-251 | boundary values (38.5 and 35.0 critical, 36.1 and 37.2 normal, 35.00001 warning, mobility 30 warning and 29.999 critical) and three sample snapshots with their exact alert lists |
| `Synthesizer.Clamp` | script.js:62-73 | the result lies in [lo, hi]; an in-range value is unchanged; a value outside becomes the nearer bound |
| `Synthesizer.ClampNearest` | script.js:62-73 | no point of [lo, hi] is nearer to the input than its clamp |
| `Synthesizer.ClampIdempotent` | script.js:62-73 | clamping twice equals clamping once |
| `Synthesizer.CriticalOverride` | script.js:81-92 | condition i writes its fixed constant into exactly one reading; all other readings, the flex count included, are kept |
| `Synthesizer.ConditionSeverities` | script.js:82-88 | the override values classify as 38.8 critical, 35.2 warning, mobility 25 critical, cabin 16 warning, humidity 85 warning |
| `Synthesizer.CriticalOverrideRaisesAlert` | script.js:81-92 | applied to a complete snapshot, every condition makes the next check raise a non-normal alert for the metric it overwrote |
| `Synthesizer.Synthesize` | script.js:53-79 | every reading is set; for any draw, mobility and humidity lie in [0, 100] and the flex count in [0, 4095]; the flex count is always the clamped draw; without an override, body and cabin temperature are as drawn, mobility and humidity are their clamped draws, and in-range draws pass the clamps unchanged |
| `Synthesizer.SynthesizeWithCondition` | script.js:75-78 | a step with condition i is the plain step with `CriticalOverride` for i applied on top |
| `Monitor.MedicalMonitoringSystem.constructor` | script.js:4-51 | starts from null readings and no alerts, connected, and runs the first simulation step without an alert check |
| `Monitor.MedicalMonitoringSystem.GenerateSimulatedData` | script.js:53-79 | overwriting the readings field by field gives exactly `Synthesize` of the draws; the alerts are untouched |
| `Monitor.MedicalMonitoringSystem.SimulateCriticalCondition` | script.js:81-92 | the new readings are `CriticalOverride` of the old ones for the picked index |
| `Monitor.MedicalMonitoringSystem.CheckAlerts` | script.js:183-256 | returns `DeriveAlerts` of the readings; on success the held list is replaced wholesale by it, and on failure it is kept |
| `Monitor.MedicalMonitoringSystem.ReceiveDataFromESP32` | script.js:314-318 | the readings become the merge of the old readings with the update, then alerts are checked as in `CheckAlerts` |
| `Monitor.MedicalMonitoringSystem.Tick` | script.js:42-46 | after a periodic cycle, the readings are the synthesized ones and the alert list is exactly the one derived from them |
| `Monitor.CriticalThenNominal` | script.js:314-318 | a fever update followed by a full nominal update leaves the alert list empty |

## Left out

- The display's DOM writes, CSS classes and texts, the connection-status card, and the HTML that `updateAlertsDisplay` builds are presentation. Only the severity each card shows is modelled (`DisplayStatus`).
- Alert titles, messages, `toFixed` formatting and `toLocaleTimeString` times are presentation and locale concerns. An alert is modelled as its type and priority.
- `Math.sin`, `Math.random` and `Date.now` in the simulator use floating point and randomness. They become the inputs `RawReadings` and `pick`.
- IEEE double rounding near the thresholds is not modelled, because readings are exact reals.
- The timers (`setInterval`, `setTimeout`), `init`'s clock tick, `updateTime` and `stopSimulation` only schedule work. `Tick` models one body of the two-second cycle.
- The random connectivity flip and its five-second reset are cosmetic and affect nothing else. `isConnected` is only initialised.
- The footer click handler, `alert()` and the module export are UI glue.
- `Monitor.MedicalMonitoringSystem.ReceiveDataFromESP32`: an update whose key holds `undefined` (as opposed to null) is not modelled, because the display step throws on it before any check. Keys other than the five readings are not modelled either.
