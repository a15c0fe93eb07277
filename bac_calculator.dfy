/**
 * The BAC calculator: the Widmark estimator with its two-phase time curve,
 * the sensor heuristic, the impairment classifier, the sober-time formula and
 * the drink-type resolver. Arithmetic is exact (`real`); BAC is in the
 * conventional percent units (0.08 is the usual legal limit).
 */
module BacCalculator {
  import opened Wrappers

  // Widmark distribution factors (average values)
  const MaleWidmarkFactor: real := 0.68
  const FemaleWidmarkFactor: real := 0.55

  // Alcohol elimination, in BAC units per hour
  const MetabolismRate: real := 0.015

  // Unit conversions
  const MlPerOz: real := 29.5735
  const EthanolDensity: real := 0.789   // grams per millilitre
  const GramsPerLb: real := 453.592

  // BAC is assumed to peak this many hours after the first drink
  const PeakHours: real := 0.5

  /** A drink record; `timestamp` is absent until the monitor logs the drink. */
  datatype Drink = Drink(alcoholPercent: real, volumeOz: real, timestamp: Option<real>)

  // ---------------------------------------------------------------------------
  // Alcohol content

  /** Grams of ethanol in one drink: ounces to millilitres, times the alcohol fraction, times the density. */
  function GramsOf(d: Drink): (g: real)
    ensures d.volumeOz > 0.0 && d.alcoholPercent > 0.0 ==> g > 0.0
    ensures d.volumeOz >= 0.0 && d.alcoholPercent >= 0.0 ==> g >= 0.0
  {
    var volumeMl := d.volumeOz * MlPerOz;
    var alcoholMl := volumeMl * (d.alcoholPercent / 100.0);
    assert d.volumeOz > 0.0 && d.alcoholPercent > 0.0 ==> volumeMl > 0.0 && alcoholMl > 0.0;
    assert d.volumeOz >= 0.0 && d.alcoholPercent >= 0.0 ==> volumeMl >= 0.0 && alcoholMl >= 0.0;
    alcoholMl * EthanolDensity
  }

  /** Total grams of ethanol over a drink list (the sum `calculate_bac_widmark` accumulates front to back). */
  function TotalGrams(drinks: seq<Drink>): real
  {
    if drinks == [] then 0.0
    else TotalGrams(drinks[..|drinks| - 1]) + GramsOf(drinks[|drinks| - 1])
  }

  lemma {:induction false} TotalGramsAppend(a: seq<Drink>, b: seq<Drink>)
    ensures TotalGrams(a + b) == TotalGrams(a) + TotalGrams(b)
    decreases |b|
  {
    if b == [] {
      assert a + b == a;
    } else {
      var n := |b| - 1;
      assert (a + b)[..|a + b| - 1] == a + b[..n];
      TotalGramsAppend(a, b[..n]);
    }
  }

  /** The total does not depend on the order of the drinks. */
  lemma {:induction false} TotalGramsPermutation(a: seq<Drink>, b: seq<Drink>)
    requires multiset(a) == multiset(b)
    ensures TotalGrams(a) == TotalGrams(b)
    decreases |a|
  {
    if a == [] {
      assert |b| == |multiset(b)| == 0;
    } else {
      var n := |a| - 1;
      var x := a[n];
      assert a == a[..n] + [x];
      assert x in multiset(b);
      var i :| 0 <= i < |b| && b[i] == x;
      var rest := b[..i] + b[i + 1..];
      assert b == b[..i] + [x] + b[i + 1..];
      assert multiset(rest) == multiset(b) - multiset{x};
      assert multiset(a[..n]) == multiset(a) - multiset{x};
      TotalGramsPermutation(a[..n], rest);
      TotalGramsAppend(b[..i] + [x], b[i + 1..]);
      TotalGramsAppend(b[..i], [x]);
      TotalGramsAppend(b[..i], b[i + 1..]);
      assert [x][..0] == [];
    }
  }

  predicate NonNegativeDrinks(drinks: seq<Drink>)
  {
    forall i :: 0 <= i < |drinks| ==> drinks[i].volumeOz >= 0.0 && drinks[i].alcoholPercent >= 0.0
  }

  lemma {:induction false} TotalGramsNonNegative(drinks: seq<Drink>)
    requires NonNegativeDrinks(drinks)
    ensures TotalGrams(drinks) >= 0.0
    decreases |drinks|
  {
    if drinks != [] {
      TotalGramsNonNegative(drinks[..|drinks| - 1]);
    }
  }

  /** The three standard drinks of the table each hold the same ethanol, about 14 g. */
  lemma StandardDrinksEquivalent()
    ensures GramsOf(DrinkDatabase["beer"]) == GramsOf(DrinkDatabase["wine"]) == GramsOf(DrinkDatabase["liquor"])
    ensures 13.9 < GramsOf(DrinkDatabase["beer"]) < 14.1
  {
  }

  // ---------------------------------------------------------------------------
  // Widmark estimator

  function AsciiLower(c: char): char
  {
    if 'A' <= c <= 'Z' then (c as int + 32) as char else c
  }

  /** `gender.lower() == 'male'`. */
  predicate IsMale(gender: string)
  {
    |gender| == 4 && forall i :: 0 <= i < 4 ==> AsciiLower(gender[i]) == "male"[i]
  }

  /** Every one of the sixteen capitalisations of "male" selects the male factor. */
  lemma AnyCapitalisationIsMale(gender: string)
    requires |gender| == 4
    requires forall i :: 0 <= i < 4 ==> gender[i] == "male"[i] || gender[i] == "MALE"[i]
    ensures IsMale(gender)
  {
  }

  /** Other spellings, including "female" and near misses, do not. */
  lemma NonMaleSpellings()
    ensures !IsMale("female") && !IsMale("Female") && !IsMale("m") && !IsMale("males") && !IsMale("mal")
  {
  }

  function WidmarkFactor(gender: string): (r: real)
    ensures r == MaleWidmarkFactor <==> IsMale(gender)
    ensures r == FemaleWidmarkFactor <==> !IsMale(gender)
  {
    if IsMale(gender) then MaleWidmarkFactor else FemaleWidmarkFactor
  }

  /** Peak BAC before any elimination: grams over (factor times body grams), scaled by 100. */
  function PeakBac(weightLbs: real, gender: string, totalGrams: real): real
    requires weightLbs != 0.0
  {
    var weightGrams := weightLbs * GramsPerLb;
    assert WidmarkFactor(gender) * weightGrams != 0.0;
    (totalGrams / (WidmarkFactor(gender) * weightGrams)) * 100.0
  }

  /** The two-phase curve: a linear ramp up to the peak at 0.5 h, then linear elimination. */
  function Curve(peak: real, hours: real): real
  {
    if hours <= PeakHours then peak * (hours / PeakHours)
    else peak - MetabolismRate * (hours - PeakHours)
  }

  /** `max(0, x)` */
  function Max0(x: real): real
  {
    if x > 0.0 then x else 0.0
  }

  /** The Widmark estimate for a drink list, `hours` after the first drink. */
  function WidmarkBac(weightLbs: real, gender: string, drinks: seq<Drink>, hours: real): (r: real)
    requires weightLbs != 0.0
    ensures r >= 0.0
    ensures drinks == [] ==> r == 0.0
  {
    Max0(Curve(PeakBac(weightLbs, gender, TotalGrams(drinks)), hours))
  }

  /**
   * The Widmark formula as `calculate_bac_widmark` runs it: accumulate the grams over the
   * drink list, derive the peak, apply the two-phase curve, clamp at zero.
   */
  method CalculateBacWidmark(weightLbs: real, gender: string, drinks: seq<Drink>, hoursSinceFirstDrink: real)
    returns (bac: real)
    requires weightLbs != 0.0
    ensures bac == WidmarkBac(weightLbs, gender, drinks, hoursSinceFirstDrink)
  {
    var weightGrams := weightLbs * GramsPerLb;
    var totalAlcoholGrams := 0.0;
    for i := 0 to |drinks|
      invariant totalAlcoholGrams == TotalGrams(drinks[..i])
    {
      var volumeMl := drinks[i].volumeOz * MlPerOz;
      var alcoholMl := volumeMl * (drinks[i].alcoholPercent / 100.0);
      var alcoholGrams := alcoholMl * EthanolDensity;
      assert drinks[..i + 1][..i] == drinks[..i];
      totalAlcoholGrams := totalAlcoholGrams + alcoholGrams;
    }
    assert drinks[..|drinks|] == drinks;
    var widmarkFactor := WidmarkFactor(gender);
    assert widmarkFactor * weightGrams != 0.0;
    var peakBac := (totalAlcoholGrams / (widmarkFactor * weightGrams)) * 100.0;
    if hoursSinceFirstDrink <= PeakHours {
      bac := peakBac * (hoursSinceFirstDrink / PeakHours);
    } else {
      var timeSincePeak := hoursSinceFirstDrink - PeakHours;
      bac := peakBac - MetabolismRate * timeSincePeak;
    }
    bac := Max0(bac);
  }

  /** The estimate depends on the drinks as a multiset only: any reordering gives the same BAC. */
  lemma WidmarkOrderIndependent(weightLbs: real, gender: string, a: seq<Drink>, b: seq<Drink>, hours: real)
    requires weightLbs != 0.0
    requires multiset(a) == multiset(b)
    ensures WidmarkBac(weightLbs, gender, a, hours) == WidmarkBac(weightLbs, gender, b, hours)
  {
    TotalGramsPermutation(a, b);
  }

  /** For a positive weight the peak is strictly increasing in the grams consumed. */
  lemma PeakStrictlyIncreasing(weightLbs: real, gender: string, x: real, y: real)
    requires weightLbs > 0.0
    requires x < y
    ensures PeakBac(weightLbs, gender, x) < PeakBac(weightLbs, gender, y)
  {
  }

  /** Appending a drink with positive volume and percent strictly raises the peak. */
  lemma PeakIncreasesWithDrink(weightLbs: real, gender: string, drinks: seq<Drink>, d: Drink)
    requires weightLbs > 0.0
    requires d.volumeOz > 0.0 && d.alcoholPercent > 0.0
    ensures PeakBac(weightLbs, gender, TotalGrams(drinks + [d])) > PeakBac(weightLbs, gender, TotalGrams(drinks))
  {
    assert (drinks + [d])[..|drinks + [d]| - 1] == drinks;
    PeakStrictlyIncreasing(weightLbs, gender, TotalGrams(drinks), TotalGrams(drinks + [d]));
  }

  /** For the same positive weight and a positive total, a non-male profile peaks strictly higher. */
  lemma NonMalePeakLarger(weightLbs: real, male: string, other: string, totalGrams: real)
    requires weightLbs > 0.0 && totalGrams > 0.0
    requires IsMale(male) && !IsMale(other)
    ensures PeakBac(weightLbs, other, totalGrams) > PeakBac(weightLbs, male, totalGrams)
  {
  }

  /** In the absorption phase the estimate never decreases with time, for any peak. */
  lemma RampNonDecreasing(weightLbs: real, gender: string, drinks: seq<Drink>, t1: real, t2: real)
    requires weightLbs != 0.0
    requires 0.0 <= t1 <= t2 <= PeakHours
    ensures WidmarkBac(weightLbs, gender, drinks, t1) <= WidmarkBac(weightLbs, gender, drinks, t2)
  {
    var p := PeakBac(weightLbs, gender, TotalGrams(drinks));
    if p >= 0.0 {
      assert p * (t2 / PeakHours) - p * (t1 / PeakHours) == p * (t2 - t1) * 2.0;
      assert p * (t2 - t1) >= 0.0;
    } else {
      assert p * (t2 / PeakHours) <= 0.0;
    }
  }

  /** With a non-negative elapsed time and peak, the ramp reaches exactly the peak at 0.5 h and never exceeds it. */
  lemma RampReachesPeak(weightLbs: real, gender: string, drinks: seq<Drink>, hours: real)
    requires weightLbs != 0.0
    requires PeakBac(weightLbs, gender, TotalGrams(drinks)) >= 0.0
    requires 0.0 <= hours <= PeakHours
    ensures WidmarkBac(weightLbs, gender, drinks, PeakHours) == PeakBac(weightLbs, gender, TotalGrams(drinks))
    ensures WidmarkBac(weightLbs, gender, drinks, hours) == PeakBac(weightLbs, gender, TotalGrams(drinks)) * (hours / PeakHours)
    ensures WidmarkBac(weightLbs, gender, drinks, hours) <= PeakBac(weightLbs, gender, TotalGrams(drinks))
  {
    var p := PeakBac(weightLbs, gender, TotalGrams(drinks));
    assert p * (hours / PeakHours) >= 0.0;
    assert p - p * (hours / PeakHours) == p * (PeakHours - hours) * 2.0;
    assert p * (PeakHours - hours) >= 0.0;
  }

  /** In the elimination phase the estimate never increases with time. */
  lemma EliminationNonIncreasing(weightLbs: real, gender: string, drinks: seq<Drink>, t1: real, t2: real)
    requires weightLbs != 0.0
    requires PeakHours < t1 <= t2
    ensures WidmarkBac(weightLbs, gender, drinks, t2) <= WidmarkBac(weightLbs, gender, drinks, t1)
  {
  }

  /** With a positive peak the ramp rises strictly between 0 and 0.5 h. */
  lemma RampStrictlyIncreasing(weightLbs: real, gender: string, drinks: seq<Drink>, t1: real, t2: real)
    requires weightLbs != 0.0
    requires PeakBac(weightLbs, gender, TotalGrams(drinks)) > 0.0
    requires 0.0 <= t1 < t2 <= PeakHours
    ensures WidmarkBac(weightLbs, gender, drinks, t1) < WidmarkBac(weightLbs, gender, drinks, t2)
  {
    var p := PeakBac(weightLbs, gender, TotalGrams(drinks));
    assert Curve(p, t1) == p * (t1 / PeakHours);
    assert Curve(p, t2) == p * (t2 / PeakHours);
    assert WidmarkBac(weightLbs, gender, drinks, t1) == Max0(Curve(p, t1));
    assert WidmarkBac(weightLbs, gender, drinks, t2) == Max0(Curve(p, t2));
    assert p * (t2 / PeakHours) - p * (t1 / PeakHours) == p * (t2 - t1) * 2.0;
    assert p * (t2 - t1) > 0.0;
    assert p * (t1 / PeakHours) >= 0.0;
  }

  /** After 0.5 h the estimate falls strictly until it is clamped at zero. */
  lemma EliminationStrictlyDecreasing(weightLbs: real, gender: string, drinks: seq<Drink>, t1: real, t2: real)
    requires weightLbs != 0.0
    requires PeakHours < t1 < t2
    requires WidmarkBac(weightLbs, gender, drinks, t2) > 0.0
    ensures WidmarkBac(weightLbs, gender, drinks, t2) < WidmarkBac(weightLbs, gender, drinks, t1)
  {
  }

  /** Once elimination has started, a positive estimate is strictly below the peak, by exactly the eliminated amount. */
  lemma EliminationBelowPeak(weightLbs: real, gender: string, drinks: seq<Drink>, hours: real)
    requires weightLbs != 0.0
    requires hours > PeakHours
    requires WidmarkBac(weightLbs, gender, drinks, hours) > 0.0
    ensures WidmarkBac(weightLbs, gender, drinks, hours)
         == PeakBac(weightLbs, gender, TotalGrams(drinks)) - MetabolismRate * (hours - PeakHours)
    ensures WidmarkBac(weightLbs, gender, drinks, hours) < PeakBac(weightLbs, gender, TotalGrams(drinks))
  {
  }

  /** Single beer for a 133 lb female: about 0.0422 at the 0.5 h peak, and 0.0075 less at 1 h. */
  lemma OneBeerScenario()
    ensures var beer := DrinkDatabase["beer"];
      0.0421 < WidmarkBac(133.0, "female", [beer], 0.5) < 0.0423 &&
      WidmarkBac(133.0, "female", [beer], 1.0) == WidmarkBac(133.0, "female", [beer], 0.5) - 0.0075
  {
    var beer := DrinkDatabase["beer"];
    assert [beer][..0] == [];
    assert !IsMale("female");
    var p := PeakBac(133.0, "female", TotalGrams([beer]));
    assert TotalGrams([beer]) == GramsOf(beer);
    assert 0.0421 < p < 0.0423;
  }

  // ---------------------------------------------------------------------------
  // Sensor heuristic

  /** Relative deviation of a reading from its baseline. */
  function Deviation(current: real, baseline: real): real
    requires baseline != 0.0
  {
    (current - baseline) / baseline
  }

  /** A channel contributes `weight * deviation` only when its deviation exceeds its threshold. */
  function Contribution(deviation: real, threshold: real, weight: real): real
  {
    if deviation > threshold then weight * deviation else 0.0
  }

  const HeartRateThreshold: real := 0.1
  const SkinConductanceThreshold: real := 0.15
  const TemperatureThreshold: real := 0.02

  /** The undecayed sum of the three channel contributions. */
  function SensorScore(heartRate: real, skinConductance: real, temperature: real,
                       baselineHr: real, baselineSc: real, baselineTemp: real): real
    requires baselineHr != 0.0 && baselineSc != 0.0 && baselineTemp != 0.0
  {
    Contribution(Deviation(heartRate, baselineHr), HeartRateThreshold, 0.02)
    + Contribution(Deviation(skinConductance, baselineSc), SkinConductanceThreshold, 0.015)
    + Contribution(Deviation(temperature, baselineTemp), TemperatureThreshold, 0.01)
  }

  /**
   * The sensor estimate: the channel score times the time decay, clamped at
   * zero. `decay` stands for exp(-0.015 * hours since the last drink).
   */
  function SensorBac(heartRate: real, skinConductance: real, temperature: real,
                     baselineHr: real, baselineSc: real, baselineTemp: real, decay: real): (r: real)
    requires baselineHr != 0.0 && baselineSc != 0.0 && baselineTemp != 0.0
    ensures r >= 0.0
  {
    Max0(SensorScore(heartRate, skinConductance, temperature, baselineHr, baselineSc, baselineTemp) * decay)
  }

  /** The sensor estimate as `estimate_bac_from_sensors` builds it, by successive additions and a final scaling. */
  method EstimateBacFromSensors(heartRate: real, skinConductance: real, temperature: real,
                                baselineHr: real, baselineSc: real, baselineTemp: real, decay: real)
    returns (bac: real)
    requires baselineHr != 0.0 && baselineSc != 0.0 && baselineTemp != 0.0
    ensures bac == SensorBac(heartRate, skinConductance, temperature, baselineHr, baselineSc, baselineTemp, decay)
  {
    var hrDeviation := (heartRate - baselineHr) / baselineHr;
    var scDeviation := (skinConductance - baselineSc) / baselineSc;
    var tempDeviation := (temperature - baselineTemp) / baselineTemp;
    var estimatedBac := 0.0;
    if hrDeviation > HeartRateThreshold {
      estimatedBac := estimatedBac + 0.02 * hrDeviation;
    }
    if scDeviation > SkinConductanceThreshold {
      estimatedBac := estimatedBac + 0.015 * scDeviation;
    }
    if tempDeviation > TemperatureThreshold {
      estimatedBac := estimatedBac + 0.01 * tempDeviation;
    }
    estimatedBac := estimatedBac * decay;
    bac := Max0(estimatedBac);
  }

  /** With a positive decay, the sensor estimate is positive exactly when some channel exceeds its threshold. */
  lemma SensorBacPositiveIff(heartRate: real, skinConductance: real, temperature: real,
                             baselineHr: real, baselineSc: real, baselineTemp: real, decay: real)
    requires baselineHr != 0.0 && baselineSc != 0.0 && baselineTemp != 0.0
    requires decay > 0.0
    ensures SensorBac(heartRate, skinConductance, temperature, baselineHr, baselineSc, baselineTemp, decay) > 0.0
        <==> (Deviation(heartRate, baselineHr) > HeartRateThreshold
              || Deviation(skinConductance, baselineSc) > SkinConductanceThreshold
              || Deviation(temperature, baselineTemp) > TemperatureThreshold)
  {
  }

  /** A decay factor in (0, 1] can only shrink the estimate below the raw channel score. */
  lemma SensorBacDecays(heartRate: real, skinConductance: real, temperature: real,
                        baselineHr: real, baselineSc: real, baselineTemp: real, decay: real)
    requires baselineHr != 0.0 && baselineSc != 0.0 && baselineTemp != 0.0
    requires 0.0 < decay <= 1.0
    ensures SensorBac(heartRate, skinConductance, temperature, baselineHr, baselineSc, baselineTemp, decay)
         <= SensorScore(heartRate, skinConductance, temperature, baselineHr, baselineSc, baselineTemp)
  {
  }

  // ---------------------------------------------------------------------------
  // Impairment classifier and sober time

  datatype ImpairmentLevel = Sober | MildImpairment | ModerateImpairment | HighImpairment | SevereImpairment
  {
    function Rank(): nat
    {
      match this
      case Sober => 0
      case MildImpairment => 1
      case ModerateImpairment => 2
      case HighImpairment => 3
      case SevereImpairment => 4
    }
  }

  datatype Effects = Effects(level: ImpairmentLevel, effects: string, recommendation: string, color: string)

  /** Half-open BAC intervals [0.02, 0.05), [0.05, 0.08), [0.08, 0.15) between Sober and Severe. */
  function GetBacEffects(bac: real): (e: Effects)
    ensures e.level == Sober <==> bac < 0.02
    ensures e.level == MildImpairment <==> 0.02 <= bac < 0.05
    ensures e.level == ModerateImpairment <==> 0.05 <= bac < 0.08
    ensures e.level == HighImpairment <==> 0.08 <= bac < 0.15
    ensures e.level == SevereImpairment <==> 0.15 <= bac
  {
    if bac < 0.02 then
      Effects(Sober, "No significant effects", "Safe to drive", "green")
    else if bac < 0.05 then
      Effects(MildImpairment, "Slight euphoria, relaxation, decreased inhibition", "Exercise caution", "yellow")
    else if bac < 0.08 then
      Effects(ModerateImpairment, "Impaired judgment, reduced coordination, slower reaction time", "Do not drive", "orange")
    else if bac < 0.15 then
      Effects(HighImpairment, "Significant impairment, poor coordination, slurred speech",
              "Do not drive, seek safe transportation", "red")
    else
      Effects(SevereImpairment, "Severe impairment, risk of alcohol poisoning", "Seek medical attention if needed", "darkred")
  }

  /** A higher BAC never gives a milder level. */
  lemma ClassifierMonotone(b1: real, b2: real)
    requires b1 <= b2
    ensures GetBacEffects(b1).level.Rank() <= GetBacEffects(b2).level.Rank()
  {
  }

  /** Each boundary belongs to the higher level. */
  lemma ClassifierBoundaries()
    ensures GetBacEffects(0.0).level == Sober
    ensures GetBacEffects(0.019999).level == Sober
    ensures GetBacEffects(0.02).level == MildImpairment
    ensures GetBacEffects(0.05).level == ModerateImpairment
    ensures GetBacEffects(0.079999).level == ModerateImpairment
    ensures GetBacEffects(0.08).level == HighImpairment
    ensures GetBacEffects(0.15).level == SevereImpairment
  {
  }

  /** Hours until the BAC reaches zero at the elimination rate; zero when already sober. */
  function SoberTime(bac: real): (hours: real)
    ensures hours >= 0.0
    ensures bac <= 0.0 ==> hours == 0.0
    ensures bac > 0.0 ==> hours > 0.0 && bac - MetabolismRate * hours == 0.0
  {
    if bac <= 0.0 then 0.0 else bac / MetabolismRate
  }

  /** The sober time of the peak bounds the curve: from 0.5 h plus that many hours on, the Widmark estimate is zero. */
  lemma SoberAfterSoberTime(weightLbs: real, gender: string, drinks: seq<Drink>, hours: real)
    requires weightLbs != 0.0
    requires hours >= PeakHours + SoberTime(PeakBac(weightLbs, gender, TotalGrams(drinks)))
    ensures WidmarkBac(weightLbs, gender, drinks, hours) == 0.0
  {
  }

  // ---------------------------------------------------------------------------
  // Drink resolver

  const DrinkDatabase: map<string, Drink> := map[
    "beer" := Drink(5.0, 12.0, None),
    "wine" := Drink(12.0, 5.0, None),
    "liquor" := Drink(40.0, 1.5, None),
    "cocktail" := Drink(15.0, 8.0, None)
  ]

  /** The custom-drink default (5 %, 12 oz). */
  const DefaultDrink: Drink := Drink(5.0, 12.0, None)

  /** Python truthiness of an optional number: present and non-zero. */
  predicate Truthy(o: Option<real>)
  {
    o.Some? && o.value != 0.0
  }

  /**
   * A known type is the table entry with each truthy override written over it;
   * an unknown type takes each truthy override or the 5 % / 12 oz default.
   */
  function ResolveDrink(drinkType: string, volumeOz: Option<real>, alcoholPercent: Option<real>): (d: Drink)
    ensures d.volumeOz != 0.0 && d.alcoholPercent != 0.0 && d.timestamp == None
    ensures Truthy(volumeOz) ==> d.volumeOz == volumeOz.value
    ensures Truthy(alcoholPercent) ==> d.alcoholPercent == alcoholPercent.value
  {
    if drinkType in DrinkDatabase then
      var drinkInfo := DrinkDatabase[drinkType];
      var drinkInfo := if Truthy(volumeOz) then drinkInfo.(volumeOz := volumeOz.value) else drinkInfo;
      var drinkInfo := if Truthy(alcoholPercent) then drinkInfo.(alcoholPercent := alcoholPercent.value) else drinkInfo;
      drinkInfo
    else
      Drink(if Truthy(alcoholPercent) then alcoholPercent.value else 5.0,
            if Truthy(volumeOz) then volumeOz.value else 12.0,
            None)
  }

  /** A field with no truthy override comes from the table for a known type and from the default otherwise. */
  lemma ResolveDrinkFallbacks(drinkType: string, volumeOz: Option<real>, alcoholPercent: Option<real>)
    ensures var d := ResolveDrink(drinkType, volumeOz, alcoholPercent);
      var base := if drinkType in DrinkDatabase then DrinkDatabase[drinkType] else DefaultDrink;
      (!Truthy(volumeOz) ==> d.volumeOz == base.volumeOz) &&
      (!Truthy(alcoholPercent) ==> d.alcoholPercent == base.alcoholPercent)
  {
  }

  /** Zero overrides are ignored, and an unknown type without overrides resolves like a beer. */
  lemma ResolveDrinkDefaults(drinkType: string)
    ensures ResolveDrink(drinkType, Some(0.0), Some(0.0)) == ResolveDrink(drinkType, None, None)
    ensures drinkType in DrinkDatabase ==> ResolveDrink(drinkType, None, None) == DrinkDatabase[drinkType]
    ensures drinkType !in DrinkDatabase ==> ResolveDrink(drinkType, None, None) == ResolveDrink("beer", None, None)
  {
  }

  /** Positive overrides (or none) always give a drink with positive grams of ethanol. */
  lemma ResolvedDrinkHasAlcohol(drinkType: string, volumeOz: Option<real>, alcoholPercent: Option<real>)
    requires volumeOz.Some? ==> volumeOz.value >= 0.0
    requires alcoholPercent.Some? ==> alcoholPercent.value >= 0.0
    ensures GramsOf(ResolveDrink(drinkType, volumeOz, alcoholPercent)) > 0.0
  {
  }
}
