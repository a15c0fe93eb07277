# BAC estimation engine — a Dafny model

This project models the estimation engine of a wearable-style Blood Alcohol
Content monitor. It proves properties of the model.

- `bac_calculator.dfy` (module `BacCalculator`) holds the calculator's quantitative rules:
  - the conversion of a drink to grams of ethanol;
  - the Widmark estimator with its two-phase curve (a linear ramp to the peak at 0.5 h, then elimination at 0.015 per hour, clamped at 0);
  - the sensor heuristic;
  - the impairment classifier and the sober-time formula;
  - the drink-type resolver with its table, overrides and default.

  The gram sum and the sensor estimate are methods that follow the loop of `calculate_bac_widmark` and the successive updates of `estimate_bac_from_sensors`. Each is proved equal to a specification function, and the properties are proved about those functions.
- `real_time_monitor.dfy` (module `RealTimeMonitor`) holds the session:
  - the `SensorSimulator` class, whose readings are clamped in place;
  - the `RealTimeBacMonitor` class, with its append-only drink log, drink times, current BAC (a 0.7/0.3 blend of the Widmark and sensor estimates), history lists and alert throttle state;
  - its operations, including one pass of the monitoring loop (`Tick`).

  The class invariant `Valid()` says:
  - the BAC is never negative;
  - the sensor readings stay in their ranges;
  - both drink times are set exactly when a drink is logged;
  - the two history lists are equal and in time order;
  - the alert level and the alert time are set together.
- `wrappers.dfy` holds `Option`, which stands for Python's `None`.

Time is an explicit `now` in seconds. The random sensor noise is a parameter. The factor `math.exp(-0.015 * hours)` is a parameter `decay`.

Three behaviours of the code are worth knowing. The model follows the code in each:
- **Dropping to tier none does not reset the alert state.** The code updates `last_alert_level` only when an alert is sent. So dropping to none and then returning to the same tier within the cooldown sends no alert. `ThrottleScenarios` shows this.
- **The one-beer example.** For a 133 lb female, one beer at 0.5 h gives about 0.0422 by the code's formula. `OneBeerScenario` proves this value.
- **The Widmark-only branch is dead.** Every logged drink sets `last_drink_time`. So the branch of `_update_bac` that returns the Widmark estimate without blending is never reached. `UpdateBac` keeps it as `assert false`, and `Valid()` proves it unreachable.

## Model

| member | source | states |
|---|---|---|
| `BacCalculator.GramsOf` | bac_calculator.py:45-50 | a drink with positive volume and percent holds positive grams of ethanol; non-negative inputs give non-negative grams |
| `BacCalculator.TotalGramsAppend` | bac_calculator.py:43-51 | total grams are additive: the total of a concatenation is the sum of the totals |
| `BacCalculator.TotalGramsPermutation` | bac_calculator.py:43-51 | total grams do not depend on the order of the drinks (any two lists with the same multiset) |
| `BacCalculator.TotalGramsNonNegative` | bac_calculator.py:43-51 | drinks with non-negative volume and percent give a non-negative total |
| `BacCalculator.StandardDrinksEquivalent` | bac_calculator.py:21-23 | a table beer, wine and liquor each hold the same grams of ethanol, between 13.9 and 14.1 g |
| `BacCalculator.AnyCapitalisationIsMale` | bac_calculator.py:54 | every string of four characters each of which is the lower- or upper-case letter of "male" selects the male factor (all sixteen capitalisations) |
| `BacCalculator.NonMaleSpellings` | bac_calculator.py:54 | "female", "Female", "m", "mal" and "males" do not select the male factor |
| `BacCalculator.WidmarkFactor` | bac_calculator.py:53-54 | the factor is 0.68 exactly when the lower-cased gender is "male", and 0.55 exactly otherwise |
| `BacCalculator.WidmarkBac` | bac_calculator.py:64-73 | the Widmark estimate is never negative, for any drinks and any elapsed time (including negative), and is 0 for an empty drink list |
| `BacCalculator.CalculateBacWidmark` | bac_calculator.py:27-73 | the loop that accumulates grams, then the peak, curve and clamp, computes exactly the Widmark estimate `WidmarkBac` |
| `BacCalculator.WidmarkOrderIndependent` | bac_calculator.py:43-59 | reordering the drink list leaves the estimate unchanged |
| `BacCalculator.PeakStrictlyIncreasing` | bac_calculator.py:59 | for a positive weight the peak is strictly increasing in the grams consumed |
| `BacCalculator.PeakIncreasesWithDrink` | bac_calculator.py:43-59 | appending a drink with positive volume and percent strictly raises the peak |
| `BacCalculator.NonMalePeakLarger` | bac_calculator.py:53-59 | for the same positive weight and grams, a non-male profile has a strictly larger peak than a male one |
| `BacCalculator.RampNonDecreasing` | bac_calculator.py:64-66 | between 0 and 0.5 h the estimate never decreases with time |
| `BacCalculator.RampStrictlyIncreasing` | bac_calculator.py:64-66 | with a positive peak, between 0 and 0.5 h the estimate strictly increases with time |
| `BacCalculator.RampReachesPeak` | bac_calculator.py:64-66 | for a non-negative peak, the ramp is `peak * (t / 0.5)` on [0, 0.5], never exceeds the peak, and equals it at 0.5 h |
| `BacCalculator.EliminationNonIncreasing` | bac_calculator.py:67-73 | after 0.5 h the estimate never increases with time |
| `BacCalculator.EliminationStrictlyDecreasing` | bac_calculator.py:67-73 | after 0.5 h, while the later estimate is still positive, the estimate strictly decreases with time |
| `BacCalculator.EliminationBelowPeak` | bac_calculator.py:67-73 | after 0.5 h a positive estimate is the peak minus 0.015 per hour since the peak, strictly below the peak |
| `BacCalculator.OneBeerScenario` | bac_calculator.py:39-73 | for a 133 lb female and one beer, the estimate is between 0.0421 and 0.0423 at 0.5 h and is 0.0075 lower at 1 h |
| `BacCalculator.SensorBac` | bac_calculator.py:85-106 | the sensor estimate is never negative |
| `BacCalculator.EstimateBacFromSensors` | bac_calculator.py:75-106 | the successive additions and the decay scaling compute exactly the sensor estimate `SensorBac` |
| `BacCalculator.SensorBacPositiveIff` | bac_calculator.py:92-106 | with a positive decay, the sensor estimate is positive if and only if some channel deviation exceeds its threshold (0.1, 0.15, 0.02); otherwise it is 0 |
| `BacCalculator.SensorBacDecays` | bac_calculator.py:103-106 | a decay factor in (0, 1] never raises the estimate above the undecayed channel score |
| `BacCalculator.GetBacEffects` | bac_calculator.py:108-146 | the level is Sober, Mild, Moderate, High or Severe exactly on the half-open intervals split at 0.02, 0.05, 0.08 and 0.15 |
| `BacCalculator.ClassifierMonotone` | bac_calculator.py:108-146 | a higher BAC never gets a milder level |
| `BacCalculator.ClassifierBoundaries` | bac_calculator.py:112-140 | each boundary belongs to the higher level: 0.019999 is Sober, 0.02 Mild, 0.079999 Moderate, 0.08 High, 0.15 Severe |
| `BacCalculator.SoberTime` | bac_calculator.py:148-156 | the sober time is never negative and is 0 for a BAC of 0 or less; for a positive BAC, eliminating at 0.015 per hour for that long brings it exactly to 0 |
| `BacCalculator.SoberAfterSoberTime` | bac_calculator.py:148-156 | from 0.5 h plus the sober time of the peak onward, the Widmark estimate is 0 |
| `BacCalculator.ResolveDrink` | bac_calculator.py:158-174 | each truthy (non-zero) override is taken as given, no resolved field is ever 0, and the drink has no timestamp yet |
| `BacCalculator.ResolveDrinkFallbacks` | bac_calculator.py:162-174 | a field with no truthy override comes from the table for a known type and from the 5 % / 12 oz default otherwise |
| `BacCalculator.ResolveDrinkDefaults` | bac_calculator.py:162-174 | zero overrides are ignored; a known type without overrides is its table entry; an unknown type without overrides resolves like a beer |
| `BacCalculator.ResolvedDrinkHasAlcohol` | bac_calculator.py:158-174 | with non-negative overrides (or none), the resolved drink always has positive grams of ethanol |
| `RealTimeMonitor.Clamp` | real_time_monitor.py:48-50 | the clamped reading lies in [lo, hi] and equals the raw reading when that is already in range |
| `RealTimeMonitor.AtLeast` | real_time_monitor.py:49 | the result is at least the floor and at least the raw reading, and is one of the two |
| `RealTimeMonitor.SensorSimulator.constructor` | real_time_monitor.py:17-26 | the readings start at the baselines 70, 5.0 and 98.6, which are in range |
| `RealTimeMonitor.SensorSimulator.UpdateSensors` | real_time_monitor.py:31-50 | for any BAC and any noise, heart rate ends in [50, 120], skin conductance at least 1.0 and temperature in [95, 102]; each is the clamped baseline plus the BAC effect plus the noise |
| `RealTimeMonitor.SoberReadingsUnclamped` | real_time_monitor.py:35-50 | at BAC 0, noise within the simulator's ranges never reaches a clamp |
| `RealTimeMonitor.Blend` | real_time_monitor.py:172-173 | the 0.7 / 0.3 blend always lies between the Widmark and the sensor estimates |
| `RealTimeMonitor.AlertTier` | real_time_monitor.py:182-189 | the tier is critical exactly from 0.15, danger exactly on [0.08, 0.15), warning exactly on [0.05, 0.08), and none below 0.05 |
| `RealTimeMonitor.TierMatchesClassifier` | real_time_monitor.py:182-189 | the alert tiers coincide with the classifier's Moderate, High and Severe levels; Sober and Mild raise no tier |
| `RealTimeMonitor.FiresIff` | real_time_monitor.py:191-205 | an alert fires if and only if the tier is not none and it differs from the last level, or there is no last alert time, or strictly more than the cooldown has elapsed |
| `RealTimeMonitor.EscalationAlwaysFires` | real_time_monitor.py:196-198 | every change to a different non-none tier fires, whatever the cooldown |
| `RealTimeMonitor.RepeatsThrottled` | real_time_monitor.py:199-205 | a repeated tier within the cooldown is suppressed; tier none never fires |
| `RealTimeMonitor.ThrottleScenarios` | real_time_monitor.py:191-215 | with a 30 s cooldown: two danger ticks 10 s apart fire once; warning to danger fires at once; a return to the last tier within the cooldown after a drop to none is suppressed |
| `RealTimeMonitor.RecentData` | real_time_monitor.py:257-261 | the filtered history is never longer than the history |
| `RealTimeMonitor.RecentDataMembers` | real_time_monitor.py:260 | a sample is in the recent data if and only if it is in the history with a timestamp strictly after the cutoff |
| `RealTimeMonitor.RecentDataAppend` | real_time_monitor.py:260 | filtering a history with one more sample adds that sample at the end exactly when it is after the cutoff (order is preserved) |
| `RealTimeMonitor.RecentDataIdempotent` | real_time_monitor.py:260 | filtering the recent data again with the same cutoff changes nothing |
| `RealTimeMonitor.RecentDataSuffix` | real_time_monitor.py:260 | on a chronological history the recent data is exactly a suffix of the history |
| `RealTimeMonitor.ChronologicalAppend` | real_time_monitor.py:117-127 | appending a sample no earlier than every recorded one keeps the history chronological |
| `RealTimeMonitor.EmptySessionIsQuiet` | real_time_monitor.py:142-146 | with no drinks, a recomputation gives BAC 0, level Sober, and no alert can fire |
| `RealTimeMonitor.RealTimeBacMonitor.constructor` | real_time_monitor.py:55-88 | a new session has the given profile, no drinks, no drink times, BAC 0, empty histories, no alert state, a 30 s cooldown and monitoring off |
| `RealTimeMonitor.RealTimeBacMonitor.RecomputedBac` | real_time_monitor.py:142-175 | the recomputed BAC is never negative and is 0 with an empty drink log |
| `RealTimeMonitor.RealTimeBacMonitor.UpdateBac` | real_time_monitor.py:142-175 | sets the current BAC to 0 with no drinks, else to the blend of the Widmark estimate at the hours since the first drink and the sensor estimate; changes nothing else and keeps the session invariant |
| `RealTimeMonitor.RealTimeBacMonitor.CheckAlerts` | real_time_monitor.py:177-215 | sends the current tier and records it with `now` exactly when the rule fires; otherwise sends nothing and leaves the alert state unchanged |
| `RealTimeMonitor.RealTimeBacMonitor.AddDrink` | real_time_monitor.py:222-235 | appends exactly the resolved, timestamped drink and keeps earlier entries; sets the first-drink time only if it was unset; always sets the last-drink time; recomputes the BAC |
| `RealTimeMonitor.RealTimeBacMonitor.GetCurrentStatus` | real_time_monitor.py:239-255 | reports the BAC (non-negative), its effects, a non-negative sober time, the readings, the drink count and the minutes since the last drink (0 when there is none), without changing state |
| `RealTimeMonitor.RealTimeBacMonitor.GetRecentData` | real_time_monitor.py:257-261 | returns the samples strictly after `now - minutes` (30 minutes by default), in history order, without changing state; on a valid monitor they are exactly the tail of the history |
| `RealTimeMonitor.RealTimeBacMonitor.ResetSession` | real_time_monitor.py:263-273 | empties the drinks and both histories, unsets both drink times and both alert fields, sets the BAC to 0, and keeps the profile, cooldown and monitoring flag |
| `RealTimeMonitor.RealTimeBacMonitor.CheckAlertsManually` | real_time_monitor.py:275-286 | reports the alert tier of the current BAC (none exactly below 0.05) and its effects, without changing state |
| `RealTimeMonitor.RealTimeBacMonitor.SetAlertCooldown` | real_time_monitor.py:288-291 | sets the cooldown and nothing else |
| `RealTimeMonitor.RealTimeBacMonitor.Tick` | real_time_monitor.py:108-130 | one loop pass: recomputes the BAC, updates the sensors from it, appends the same one sample to each history (keeping it chronological when `now` is no earlier than every recorded sample), runs the alert rule, and leaves the drinks, drink times, cooldown and flag unchanged |
| `RealTimeMonitor.RealTimeBacMonitor.ShiftFirstDrinkTime` | improved_demo.py:108-111 | moves the first-drink time back by the given minutes and recomputes the BAC; does nothing when there is no drink |

## Left out

- Threading is not modelled. This covers `start_monitoring`, `stop_monitoring`, the background thread, `time.sleep`, `data_queue`, and the retry after an exception in `_monitor_loop`. `Tick` models one pass of the loop body.
- `datetime.now()` becomes the `now` parameter (seconds). The Python code reads the clock several times within one operation; the model uses a single instant per operation. `Tick` requires `now` to be no earlier than every recorded sample, so the history stays in time order; a wall clock set backwards is not modelled.
- `random.uniform` noise becomes parameters. The range properties hold for any noise.
- `math.exp(-0.015 * hours)` becomes the `decay` parameter. The properties that depend on it assume 0 < decay, and `SensorBacDecays` also assumes decay ≤ 1.
- Floating point is not modelled; arithmetic is exact `real`. The integer `0` that `max(0, x)` and `calculate_sober_time` can return is modelled as the real 0.
- Alert output is not modelled. `_send_alert` and the printed messages are output only. `CheckAlerts` returns the tier it would send, and `CheckAlertsManually` returns the tier and effects its message quotes.
- `gender.lower()` is modelled as ASCII lower-casing. This is exact for the comparison with "male": no other Unicode character lower-cases to one of its letters.
- Non-numeric override values are not modelled. The truthiness of `volume_oz` / `alcohol_percent` is modelled for numbers only: absent or 0 is falsy.
- A zero body weight makes the Python code raise `ZeroDivisionError` whenever a drink is logged. The model instead requires a non-zero weight wherever a Widmark estimate is computed.
- `SensorSimulator.alcohol_effect` is never read, so it is not modelled. Neither are the unused `weight_lbs` and `gender` parameters of `estimate_bac_from_sensors`.
- `BACCalculator` has no mutable state. Its constants and drink table are module constants.
- visualization.py, web_app.py, main.py and the demo, debug and test scripts are not part of this model. The exception is the time-shift step of improved_demo.py, modelled as `ShiftFirstDrinkTime`.
