/**
 * The real-time monitoring session: the sensor simulator, the drink log, the
 * recomputation of the current BAC (a 0.7 / 0.3 blend of the Widmark and the
 * sensor estimates), the monitoring history and the alert throttle.
 *
 * The clock is an explicit `now` (seconds), the random sensor noise is passed
 * in, and `decay` stands for exp(-0.015 * hours since the last drink).
 */
module RealTimeMonitor {
  import opened Wrappers
  import opened BacCalculator

  // ---------------------------------------------------------------------------
  // Sensor simulator

  /** `max(lo, min(hi, x))` */
  function Clamp(lo: real, hi: real, x: real): (r: real)
    requires lo <= hi
    ensures lo <= r <= hi
    ensures lo <= x <= hi ==> r == x
    ensures x < lo ==> r == lo
    ensures hi < x ==> r == hi
  {
    var m := if x < hi then x else hi;
    if m > lo then m else lo
  }

  /** `max(lo, x)` */
  function AtLeast(lo: real, x: real): (r: real)
    ensures r >= lo && r >= x
    ensures r == lo || r == x
  {
    if x > lo then x else lo
  }

  class SensorSimulator {
    // Baseline readings (normal ranges)
    const baselineHeartRate: real := 70.0           // BPM
    const baselineSkinConductance: real := 5.0      // microsiemens
    const baselineTemperature: real := 98.6         // Fahrenheit

    var currentHeartRate: real
    var currentSkinConductance: real
    var currentTemperature: real

    /** The readings lie in their plausible ranges. */
    ghost predicate Valid()
      reads this
    {
      50.0 <= currentHeartRate <= 120.0 &&
      currentSkinConductance >= 1.0 &&
      95.0 <= currentTemperature <= 102.0
    }

    constructor ()
      ensures Valid()
      ensures currentHeartRate == baselineHeartRate
      ensures currentSkinConductance == baselineSkinConductance
      ensures currentTemperature == baselineTemperature
    {
      currentHeartRate := 70.0;
      currentSkinConductance := 5.0;
      currentTemperature := 98.6;
    }

    /**
     * New readings from the BAC level plus noise, clamped into range.
     * `update_sensors` draws the noise uniformly from [-2, 2], [-0.5, 0.5] and
     * [-0.5, 0.5]; the ranges hold whatever the noise is.
     */
    method UpdateSensors(bacLevel: real, heartRateNoise: real, conductanceNoise: real, temperatureNoise: real)
      modifies this
      ensures Valid()
      ensures currentHeartRate == Clamp(50.0, 120.0, baselineHeartRate + bacLevel * 20.0 + heartRateNoise)
      ensures currentSkinConductance == AtLeast(1.0, baselineSkinConductance + bacLevel * 3.0 + conductanceNoise)
      ensures currentTemperature == Clamp(95.0, 102.0, baselineTemperature + bacLevel * 2.0 + temperatureNoise)
    {
      var hrIncrease := bacLevel * 20.0;
      currentHeartRate := baselineHeartRate + hrIncrease + heartRateNoise;
      var scIncrease := bacLevel * 3.0;
      currentSkinConductance := baselineSkinConductance + scIncrease + conductanceNoise;
      var tempChange := bacLevel * 2.0;
      currentTemperature := baselineTemperature + tempChange + temperatureNoise;

      currentHeartRate := Clamp(50.0, 120.0, currentHeartRate);
      currentSkinConductance := AtLeast(1.0, currentSkinConductance);
      currentTemperature := Clamp(95.0, 102.0, currentTemperature);
    }
  }

  /** At BAC zero, noise within the simulator's ranges never reaches a clamp. */
  lemma SoberReadingsUnclamped(heartRateNoise: real, conductanceNoise: real, temperatureNoise: real)
    requires -2.0 <= heartRateNoise <= 2.0
    requires -0.5 <= conductanceNoise <= 0.5 && -0.5 <= temperatureNoise <= 0.5
    ensures Clamp(50.0, 120.0, 70.0 + 0.0 * 20.0 + heartRateNoise) == 70.0 + heartRateNoise
    ensures AtLeast(1.0, 5.0 + 0.0 * 3.0 + conductanceNoise) == 5.0 + conductanceNoise
    ensures Clamp(95.0, 102.0, 98.6 + 0.0 * 2.0 + temperatureNoise) == 98.6 + temperatureNoise
  {
  }

  // ---------------------------------------------------------------------------
  // Blending

  const WidmarkWeight: real := 0.7
  const SensorWeight: real := 0.3

  /** The weighted average of the two estimates; it lies between them. */
  function Blend(widmarkBac: real, sensorBac: real): (r: real)
    ensures widmarkBac <= sensorBac ==> widmarkBac <= r <= sensorBac
    ensures sensorBac <= widmarkBac ==> sensorBac <= r <= widmarkBac
    ensures widmarkBac == sensorBac ==> r == widmarkBac
  {
    WidmarkWeight * widmarkBac + SensorWeight * sensorBac
  }

  // ---------------------------------------------------------------------------
  // Alert tiers and the throttle rule

  datatype AlertLevel = Warning | Danger | Critical

  const WarningThreshold: real := 0.05
  const DangerThreshold: real := 0.08
  const CriticalThreshold: real := 0.15

  /** The alert tier of a BAC value: critical from 0.15, danger from 0.08, warning from 0.05, else none. */
  function AlertTier(bac: real): (tier: Option<AlertLevel>)
    ensures tier == Some(Critical) <==> bac >= CriticalThreshold
    ensures tier == Some(Danger) <==> DangerThreshold <= bac < CriticalThreshold
    ensures tier == Some(Warning) <==> WarningThreshold <= bac < DangerThreshold
    ensures tier == None <==> bac < WarningThreshold
  {
    if bac >= CriticalThreshold then Some(Critical)
    else if bac >= DangerThreshold then Some(Danger)
    else if bac >= WarningThreshold then Some(Warning)
    else None
  }

  /** The alert tiers line up with the classifier's three upper levels; Sober and Mild raise no alert. */
  lemma TierMatchesClassifier(bac: real)
    ensures AlertTier(bac) == None <==> GetBacEffects(bac).level.Rank() <= 1
    ensures AlertTier(bac) == Some(Warning) <==> GetBacEffects(bac).level == ModerateImpairment
    ensures AlertTier(bac) == Some(Danger) <==> GetBacEffects(bac).level == HighImpairment
    ensures AlertTier(bac) == Some(Critical) <==> GetBacEffects(bac).level == SevereImpairment
  {
  }

  /** `should_alert` in `_check_alerts`: the tier changed, or a non-none tier repeats with no previous alert time or past the cooldown. */
  predicate ShouldAlert(tier: Option<AlertLevel>, lastLevel: Option<AlertLevel>, lastTime: Option<real>,
                        cooldown: int, now: real)
  {
    tier != lastLevel || (tier.Some? && (lastTime.None? || now - lastTime.value > cooldown as real))
  }

  /** An alert is sent (and the alert state updated) only when `should_alert` holds and the tier is not none. */
  predicate Fires(tier: Option<AlertLevel>, lastLevel: Option<AlertLevel>, lastTime: Option<real>,
                  cooldown: int, now: real)
  {
    ShouldAlert(tier, lastLevel, lastTime, cooldown, now) && tier.Some?
  }

  /** One alert decision: what is sent and the alert state afterwards. */
  predicate AlertStep(tier: Option<AlertLevel>, lastLevel: Option<AlertLevel>, lastTime: Option<real>,
                      cooldown: int, now: real,
                      sent: Option<AlertLevel>, newLevel: Option<AlertLevel>, newTime: Option<real>)
  {
    if Fires(tier, lastLevel, lastTime, cooldown, now) then
      sent == tier && newLevel == tier && newTime == Some(now)
    else
      sent == None && newLevel == lastLevel && newTime == lastTime
  }

  /** The closed form of the rule: a non-none tier that differs from the last, or has no last time, or whose cooldown (strictly) elapsed. */
  lemma FiresIff(tier: Option<AlertLevel>, lastLevel: Option<AlertLevel>, lastTime: Option<real>,
                 cooldown: int, now: real)
    ensures Fires(tier, lastLevel, lastTime, cooldown, now)
        <==> tier.Some? && (tier != lastLevel || lastTime.None? || now - lastTime.value > cooldown as real)
  {
  }

  /** Every change to a different non-none tier fires, regardless of the cooldown. */
  lemma EscalationAlwaysFires(tier: Option<AlertLevel>, lastLevel: Option<AlertLevel>, lastTime: Option<real>,
                              cooldown: int, now: real)
    requires tier.Some? && tier != lastLevel
    ensures Fires(tier, lastLevel, lastTime, cooldown, now)
  {
  }

  /** A repeated tier within the cooldown is suppressed, and tier none never fires. */
  lemma RepeatsThrottled(tier: Option<AlertLevel>, lastLevel: Option<AlertLevel>, lastTime: Option<real>,
                         cooldown: int, now: real)
    ensures tier == lastLevel && lastTime.Some? && now - lastTime.value <= cooldown as real
        ==> !Fires(tier, lastLevel, lastTime, cooldown, now)
    ensures !Fires(None, lastLevel, lastTime, cooldown, now)
  {
  }

  /**
   * With a 30 s cooldown: two danger ticks 10 s apart fire only once, a change
   * from warning to danger fires at once, and a drop to none followed by a
   * return to the last tier within the cooldown is suppressed (a drop to none
   * does not reset the alert state).
   */
  lemma ThrottleScenarios(t: real)
    ensures !Fires(Some(Danger), Some(Danger), Some(t), 30, t + 10.0)
    ensures Fires(Some(Danger), Some(Warning), Some(t), 30, t + 10.0)
    ensures Fires(Some(Danger), Some(Danger), Some(t), 30, t + 31.0)
    ensures !Fires(None, Some(Warning), Some(t), 30, t + 5.0)
    ensures !Fires(Some(Warning), Some(Warning), Some(t), 30, t + 10.0)
  {
  }

  // ---------------------------------------------------------------------------
  // History

  datatype DataPoint = DataPoint(timestamp: real, bac: real, heartRate: real, skinConductance: real, temperature: real)

  /** The samples strictly after `cutoff`, in their original order. */
  function RecentData(history: seq<DataPoint>, cutoff: real): (recent: seq<DataPoint>)
    ensures |recent| <= |history|
  {
    if history == [] then []
    else (if history[0].timestamp > cutoff then [history[0]] else []) + RecentData(history[1..], cutoff)
  }

  /** A sample is recent exactly when it is in the history and later than the cutoff. */
  lemma {:induction false} RecentDataMembers(history: seq<DataPoint>, cutoff: real, p: DataPoint)
    ensures p in RecentData(history, cutoff) <==> p in history && p.timestamp > cutoff
    decreases |history|
  {
    if history != [] {
      RecentDataMembers(history[1..], cutoff, p);
      assert history == [history[0]] + history[1..];
    }
  }

  /** Filtering commutes with appending a sample. */
  lemma {:induction false} RecentDataAppend(history: seq<DataPoint>, p: DataPoint, cutoff: real)
    ensures RecentData(history + [p], cutoff) == RecentData(history, cutoff) + (if p.timestamp > cutoff then [p] else [])
    decreases |history|
  {
    if history == [] {
      assert [p][1..] == [];
    } else {
      assert (history + [p])[1..] == history[1..] + [p];
      RecentDataAppend(history[1..], p, cutoff);
    }
  }

  /** Filtering twice with the same cutoff changes nothing. */
  lemma {:induction false} RecentDataIdempotent(history: seq<DataPoint>, cutoff: real)
    ensures RecentData(RecentData(history, cutoff), cutoff) == RecentData(history, cutoff)
    decreases |history|
  {
    if history != [] {
      RecentDataIdempotent(history[1..], cutoff);
      var r := RecentData(history[1..], cutoff);
      if history[0].timestamp > cutoff {
        assert RecentData(history, cutoff) == [history[0]] + r;
        assert ([history[0]] + r)[1..] == r;
      } else {
        assert RecentData(history, cutoff) == r;
      }
    }
  }

  predicate Chronological(history: seq<DataPoint>)
  {
    forall i, j :: 0 <= i < j < |history| ==> history[i].timestamp <= history[j].timestamp
  }

  lemma {:induction false} RecentDataAll(history: seq<DataPoint>, cutoff: real)
    requires forall i :: 0 <= i < |history| ==> history[i].timestamp > cutoff
    ensures RecentData(history, cutoff) == history
    decreases |history|
  {
    if history != [] {
      RecentDataAll(history[1..], cutoff);
    }
  }

  /** On a chronological history the recent samples are exactly a suffix of it. */
  lemma {:induction false} RecentDataSuffix(history: seq<DataPoint>, cutoff: real)
    requires Chronological(history)
    ensures var recent := RecentData(history, cutoff);
      recent == history[|history| - |recent|..]
    decreases |history|
  {
    if history != [] {
      if history[0].timestamp > cutoff {
        RecentDataAll(history, cutoff);
      } else {
        RecentDataSuffix(history[1..], cutoff);
      }
    }
  }

  // ---------------------------------------------------------------------------
  // The session monitor

  datatype Status = Status(bac: real, effects: Effects, soberTimeHours: real,
                           heartRate: real, skinConductance: real, temperature: real,
                           drinksCount: nat, timeSinceLastDrink: real)

  class RealTimeBacMonitor {
    const sensors: SensorSimulator

    // User profile
    const weightLbs: real
    const gender: string

    // Drink tracking
    var drinks: seq<Drink>
    var firstDrinkTime: Option<real>
    var lastDrinkTime: Option<real>

    // Real-time data
    var currentBac: real
    var bacHistory: seq<DataPoint>
    var sensorHistory: seq<DataPoint>

    var isMonitoring: bool

    // Alert throttle state
    var lastAlertLevel: Option<AlertLevel>
    var lastAlertTime: Option<real>
    var alertCooldown: int

    /**
     * The session invariant: the readings are in range, the BAC is never
     * negative, both drink times are set exactly when a drink is logged, the
     * two histories agree and are in time order, and the alert level and time
     * are set together.
     */
    ghost predicate Valid()
      reads this, sensors
    {
      sensors.Valid() &&
      currentBac >= 0.0 &&
      (drinks == [] <==> firstDrinkTime.None?) &&
      (drinks == [] <==> lastDrinkTime.None?) &&
      bacHistory == sensorHistory &&
      Chronological(bacHistory) &&
      (lastAlertLevel.None? <==> lastAlertTime.None?)
    }

    constructor (weightLbs: real, gender: string)
      ensures Valid() && fresh(sensors)
      ensures this.weightLbs == weightLbs && this.gender == gender
      ensures drinks == [] && firstDrinkTime == None && lastDrinkTime == None
      ensures currentBac == 0.0 && bacHistory == [] && sensorHistory == [] && !isMonitoring
      ensures lastAlertLevel == None && lastAlertTime == None && alertCooldown == 30
      ensures sensors.currentHeartRate == 70.0 && sensors.currentSkinConductance == 5.0
      ensures sensors.currentTemperature == 98.6
    {
      sensors := new SensorSimulator();
      this.weightLbs := weightLbs;
      this.gender := gender;
      drinks := [];
      firstDrinkTime := None;
      lastDrinkTime := None;
      currentBac := 0.0;
      bacHistory := [];
      sensorHistory := [];
      isMonitoring := false;
      lastAlertLevel := None;
      lastAlertTime := None;
      alertCooldown := 30;
    }

    /** The BAC a recomputation at `now` yields: 0 with no drinks, else the Widmark estimate, blended with the sensor estimate once a last-drink time exists. */
    function RecomputedBac(now: real, decay: real): (bac: real)
      reads this, sensors
      requires drinks != [] ==> weightLbs != 0.0
      ensures bac >= 0.0
      ensures drinks == [] ==> bac == 0.0
    {
      if drinks == [] then 0.0
      else
        var hoursSinceFirst := if firstDrinkTime.Some? then (now - firstDrinkTime.value) / 3600.0 else 0.0;
        var widmark := WidmarkBac(weightLbs, gender, drinks, hoursSinceFirst);
        if lastDrinkTime.Some? then
          Blend(widmark,
                SensorBac(sensors.currentHeartRate, sensors.currentSkinConductance, sensors.currentTemperature,
                          sensors.baselineHeartRate, sensors.baselineSkinConductance, sensors.baselineTemperature,
                          decay))
        else widmark
    }

    method UpdateBac(now: real, decay: real)
      requires Valid()
      requires drinks != [] ==> weightLbs != 0.0
      modifies this`currentBac
      ensures Valid()
      ensures currentBac == RecomputedBac(now, decay)
    {
      if drinks == [] {
        currentBac := 0.0;
        return;
      }
      var hoursSinceFirst := 0.0;
      if firstDrinkTime.Some? {
        hoursSinceFirst := (now - firstDrinkTime.value) / 3600.0;
      }
      var calculatedBac := CalculateBacWidmark(weightLbs, gender, drinks, hoursSinceFirst);
      if lastDrinkTime.Some? {
        var sensorBac := EstimateBacFromSensors(
          sensors.currentHeartRate, sensors.currentSkinConductance, sensors.currentTemperature,
          sensors.baselineHeartRate, sensors.baselineSkinConductance, sensors.baselineTemperature,
          decay);
        currentBac := WidmarkWeight * calculatedBac + SensorWeight * sensorBac;
      } else {
        // The Widmark-only fallback of `_update_bac`: Valid() sets lastDrinkTime with every drink, so it is never taken.
        assert false;
      }
    }

    /** The throttled alert check; returns the alert sent, if any. */
    method CheckAlerts(now: real) returns (sent: Option<AlertLevel>)
      requires Valid()
      modifies this`lastAlertLevel, this`lastAlertTime
      ensures Valid()
      ensures AlertStep(AlertTier(currentBac), old(lastAlertLevel), old(lastAlertTime), alertCooldown, now,
                        sent, lastAlertLevel, lastAlertTime)
    {
      var currentAlertLevel := AlertTier(currentBac);
      var shouldAlert := false;
      if currentAlertLevel != lastAlertLevel {
        shouldAlert := true;
      } else if currentAlertLevel.Some? && (lastAlertTime.None? || now - lastAlertTime.value > alertCooldown as real) {
        shouldAlert := true;
      }
      sent := None;
      if shouldAlert && currentAlertLevel.Some? {
        sent := currentAlertLevel;
        lastAlertLevel := currentAlertLevel;
        lastAlertTime := Some(now);
      }
    }

    /** Log a resolved drink at `now` and recompute the BAC at once. */
    method AddDrink(drinkType: string, volumeOz: Option<real>, alcoholPercent: Option<real>, now: real, decay: real)
      requires Valid()
      requires weightLbs != 0.0
      modifies this`drinks, this`firstDrinkTime, this`lastDrinkTime, this`currentBac
      ensures Valid()
      ensures drinks == old(drinks) + [ResolveDrink(drinkType, volumeOz, alcoholPercent).(timestamp := Some(now))]
      ensures firstDrinkTime == if old(firstDrinkTime).None? then Some(now) else old(firstDrinkTime)
      ensures lastDrinkTime == Some(now)
      ensures currentBac == RecomputedBac(now, decay)
    {
      var drinkInfo := ResolveDrink(drinkType, volumeOz, alcoholPercent);
      drinkInfo := drinkInfo.(timestamp := Some(now));
      drinks := drinks + [drinkInfo];
      if firstDrinkTime.None? {
        firstDrinkTime := Some(now);
      }
      lastDrinkTime := Some(now);
      UpdateBac(now, decay);
    }

    /** A read-only snapshot of the session. */
    method GetCurrentStatus(now: real) returns (status: Status)
      requires Valid()
      ensures status.bac == currentBac && status.bac >= 0.0
      ensures status.effects == GetBacEffects(currentBac)
      ensures status.soberTimeHours == SoberTime(currentBac) && status.soberTimeHours >= 0.0
      ensures status.heartRate == sensors.currentHeartRate
      ensures status.skinConductance == sensors.currentSkinConductance
      ensures status.temperature == sensors.currentTemperature
      ensures status.drinksCount == |drinks|
      ensures status.timeSinceLastDrink == if lastDrinkTime.Some? then (now - lastDrinkTime.value) / 60.0 else 0.0
      ensures drinks == [] ==> status.timeSinceLastDrink == 0.0
    {
      var effects := GetBacEffects(currentBac);
      var soberTime := SoberTime(currentBac);
      var sinceLast := if lastDrinkTime.Some? then (now - lastDrinkTime.value) / 60.0 else 0.0;
      status := Status(currentBac, effects, soberTime,
                       sensors.currentHeartRate, sensors.currentSkinConductance, sensors.currentTemperature,
                       |drinks|, sinceLast);
    }

    /**
     * The history samples of the last `minutes` minutes (30 by default),
     * strictly after the cutoff, in order: the tail of the history.
     */
    method GetRecentData(now: real, minutes: real := 30.0) returns (recent: seq<DataPoint>)
      requires Valid()
      ensures recent == RecentData(bacHistory, now - minutes * 60.0)
      ensures forall p :: p in recent <==> p in bacHistory && p.timestamp > now - minutes * 60.0
      ensures recent == bacHistory[|bacHistory| - |recent|..]
    {
      var cutoffTime := now - minutes * 60.0;
      recent := RecentData(bacHistory, cutoffTime);
      forall p ensures p in recent <==> p in bacHistory && p.timestamp > cutoffTime {
        RecentDataMembers(bacHistory, cutoffTime, p);
      }
      RecentDataSuffix(bacHistory, cutoffTime);
    }

    /** Clear the drinking session; the profile, the cooldown and the monitoring flag stay. */
    method ResetSession()
      requires Valid()
      modifies this
      ensures Valid()
      ensures drinks == [] && firstDrinkTime == None && lastDrinkTime == None && currentBac == 0.0
      ensures bacHistory == [] && sensorHistory == []
      ensures lastAlertLevel == None && lastAlertTime == None
      ensures alertCooldown == old(alertCooldown) && isMonitoring == old(isMonitoring)
    {
      drinks := [];
      firstDrinkTime := None;
      lastDrinkTime := None;
      currentBac := 0.0;
      bacHistory := [];
      sensorHistory := [];
      lastAlertLevel := None;
      lastAlertTime := None;
    }

    /** The tier a manual alert check reports, with the effects its message quotes. */
    method CheckAlertsManually() returns (tier: Option<AlertLevel>, effects: Effects)
      ensures tier == AlertTier(currentBac) && effects == GetBacEffects(currentBac)
      ensures tier.None? <==> currentBac < WarningThreshold
    {
      effects := GetBacEffects(currentBac);
      tier := AlertTier(currentBac);
    }

    method SetAlertCooldown(seconds: int)
      requires Valid()
      modifies this`alertCooldown
      ensures Valid()
      ensures alertCooldown == seconds
    {
      alertCooldown := seconds;
    }

    /**
     * One pass of the monitoring loop: recompute the BAC, update the sensors
     * from it, append one sample to each history, and run the alert check.
     */
    method Tick(now: real, decay: real, heartRateNoise: real, conductanceNoise: real, temperatureNoise: real)
      returns (sent: Option<AlertLevel>)
      requires Valid()
      requires drinks != [] ==> weightLbs != 0.0
      requires forall i :: 0 <= i < |bacHistory| ==> bacHistory[i].timestamp <= now
      modifies this, sensors
      ensures Valid()
      ensures drinks == old(drinks) && firstDrinkTime == old(firstDrinkTime) && lastDrinkTime == old(lastDrinkTime)
      ensures alertCooldown == old(alertCooldown) && isMonitoring == old(isMonitoring)
      ensures currentBac == old(RecomputedBac(now, decay))
      ensures sensors.currentHeartRate == Clamp(50.0, 120.0, 70.0 + currentBac * 20.0 + heartRateNoise)
      ensures sensors.currentSkinConductance == AtLeast(1.0, 5.0 + currentBac * 3.0 + conductanceNoise)
      ensures sensors.currentTemperature == Clamp(95.0, 102.0, 98.6 + currentBac * 2.0 + temperatureNoise)
      ensures var point := DataPoint(now, currentBac, sensors.currentHeartRate,
                                     sensors.currentSkinConductance, sensors.currentTemperature);
        bacHistory == old(bacHistory) + [point] && sensorHistory == old(sensorHistory) + [point]
      ensures AlertStep(AlertTier(currentBac), old(lastAlertLevel), old(lastAlertTime), alertCooldown, now,
                        sent, lastAlertLevel, lastAlertTime)
    {
      UpdateBac(now, decay);
      sensors.UpdateSensors(currentBac, heartRateNoise, conductanceNoise, temperatureNoise);
      var dataPoint := DataPoint(now, currentBac, sensors.currentHeartRate,
                                 sensors.currentSkinConductance, sensors.currentTemperature);
      ChronologicalAppend(bacHistory, dataPoint);
      bacHistory := bacHistory + [dataPoint];
      sensorHistory := sensorHistory + [dataPoint];
      sent := CheckAlerts(now);
    }

    /** Simulated passage of time: move the first-drink time back by `minutes` and recompute. */
    method ShiftFirstDrinkTime(minutes: real, now: real, decay: real)
      requires Valid()
      requires drinks != [] ==> weightLbs != 0.0
      modifies this`firstDrinkTime, this`currentBac
      ensures Valid()
      ensures old(firstDrinkTime).None? ==> firstDrinkTime == None && currentBac == old(currentBac)
      ensures old(firstDrinkTime).Some? ==>
        firstDrinkTime == Some(old(firstDrinkTime).value - minutes * 60.0) && currentBac == RecomputedBac(now, decay)
    {
      if firstDrinkTime.Some? {
        firstDrinkTime := Some(firstDrinkTime.value - minutes * 60.0);
        UpdateBac(now, decay);
      }
    }
  }

  /** A tick at a time later than every recorded sample keeps the history chronological. */
  lemma ChronologicalAppend(history: seq<DataPoint>, p: DataPoint)
    requires Chronological(history)
    requires forall i :: 0 <= i < |history| ==> history[i].timestamp <= p.timestamp
    ensures Chronological(history + [p])
  {
  }

  /** Without drinks the session's BAC is 0, its level Sober, and no alert fires. */
  lemma EmptySessionIsQuiet(m: RealTimeBacMonitor, now: real, decay: real)
    requires m.drinks == []
    ensures m.RecomputedBac(now, decay) == 0.0
    ensures GetBacEffects(m.RecomputedBac(now, decay)).level == Sober
    ensures forall lastLevel, lastTime, cooldown ::
      !Fires(AlertTier(m.RecomputedBac(now, decay)), lastLevel, lastTime, cooldown, now)
  {
  }
}
