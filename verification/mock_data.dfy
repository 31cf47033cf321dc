/**
 The simulated telemetry source: the noisy sensor sampler, the fixed status
 classifier table, the static threshold rows, the seeded tank status and
 control settings, and the hourly historical series.

 Every `Math.random()` result is a parameter: a real `r` with `0 <= r < 1`.
 Every clock read is a parameter in milliseconds.
 */
module MockData {
  import opened Aquaculture

  /** What `Math.random()` promises of each result. */
  predicate IsDraw(r: real) {
    0.0 <= r < 1.0
  }

  /** The nine draws one sampler call makes, in field order. */
  predicate ValidDraws(r: seq<real>) {
    |r| == 9 && forall i :: 0 <= i < |r| ==> IsDraw(r[i])
  }

  /** Half-open interval `[lo, hi)`. */
  predicate InHalfOpen(v: real, lo: real, hi: real) {
    lo <= v < hi
  }

  /**
   A synthetic snapshot: `base + r * spread`, minus an offset for the first
   three readings, with the i-th draw feeding the i-th field.
   */
  function GenerateSensorData(r: seq<real>): (d: SensorData)
    requires ValidDraws(r)
    ensures InHalfOpen(d.temperature, 27.0, 29.0)
    ensures InHalfOpen(d.ph, 7.6, 8.0)
    ensures InHalfOpen(d.dissolvedOxygen, 5.0, 6.5)
    ensures InHalfOpen(d.ammonia, 0.02, 0.10)
    ensures InHalfOpen(d.nitrite, 0.1, 0.25)
    ensures InHalfOpen(d.nitrate, 15.0, 25.0)
    ensures InHalfOpen(d.salinity, 25.0, 28.0)
    ensures InHalfOpen(d.turbidity, 10.0, 15.0)
    ensures InHalfOpen(d.tan, 0.5, 0.8)
  {
    assert IsDraw(r[0]) && IsDraw(r[1]) && IsDraw(r[2]) && IsDraw(r[3]) && IsDraw(r[4]);
    assert IsDraw(r[5]) && IsDraw(r[6]) && IsDraw(r[7]) && IsDraw(r[8]);
    SensorData(
      temperature := 28.0 + r[0] * 2.0 - 1.0,
      ph := 7.8 + r[1] * 0.4 - 0.2,
      dissolvedOxygen := 5.5 + r[2] * 1.5 - 0.5,
      ammonia := 0.02 + r[3] * 0.08,
      nitrite := 0.1 + r[4] * 0.15,
      nitrate := 15.0 + r[5] * 10.0,
      salinity := 25.0 + r[6] * 3.0,
      turbidity := 10.0 + r[7] * 5.0,
      tan := 0.5 + r[8] * 0.3)
  }

  /** Closed interval `[lo, hi]`. */
  datatype Range = Range(lo: real, hi: real) {
    predicate Contains(v: real) {
      lo <= v <= hi
    }
  }

  /** One row of the classifier table. */
  datatype Rule = Rule(optimal: Range, warning: Range)

  /** The classifier's own hardcoded table (not the editable threshold rows). */
  function RuleFor(s: Sensor): Rule {
    match s
    case Temperature => Rule(Range(27.0, 30.0), Range(25.0, 32.0))
    case Ph => Rule(Range(7.5, 8.5), Range(7.0, 9.0))
    case DissolvedOxygen => Rule(Range(5.0, 8.0), Range(4.0, 10.0))
    case Ammonia => Rule(Range(0.0, 0.05), Range(0.0, 0.1))
    case Nitrite => Rule(Range(0.0, 0.2), Range(0.0, 0.5))
    case Nitrate => Rule(Range(0.0, 20.0), Range(0.0, 40.0))
    case Salinity => Rule(Range(24.0, 28.0), Range(20.0, 32.0))
    case Turbidity => Rule(Range(0.0, 15.0), Range(0.0, 25.0))
    case Tan => Rule(Range(0.0, 0.5), Range(0.0, 1.0))
  }

  /** Every row's optimal range lies inside its warning range. */
  lemma OptimalWithinWarning(s: Sensor)
    ensures RuleFor(s).warning.lo <= RuleFor(s).optimal.lo <= RuleFor(s).optimal.hi <= RuleFor(s).warning.hi
  {
  }

  /**
   Classifies a reading: optimal when inside the optimal range (checked
   first), warning when inside the warning range only, critical otherwise.
   */
  function GetSensorStatus(s: Sensor, v: real): (st: Status)
    ensures st == Optimal <==> RuleFor(s).optimal.Contains(v)
    ensures st == Warning <==> RuleFor(s).warning.Contains(v) && !RuleFor(s).optimal.Contains(v)
    ensures st == Critical <==> !RuleFor(s).warning.Contains(v)
    ensures st == Critical <==> v < RuleFor(s).warning.lo || RuleFor(s).warning.hi < v
  {
    var rule := RuleFor(s);
    if rule.optimal.lo <= v && v <= rule.optimal.hi then Optimal
    else if rule.warning.lo <= v && v <= rule.warning.hi then Warning
    else Critical
  }

  /** Both endpoints of each optimal range classify as optimal. */
  lemma OptimalBoundsInclusive(s: Sensor)
    ensures GetSensorStatus(s, RuleFor(s).optimal.lo) == Optimal
    ensures GetSensorStatus(s, RuleFor(s).optimal.hi) == Optimal
    ensures GetSensorStatus(Temperature, 27.0) == Optimal && GetSensorStatus(Temperature, 30.0) == Optimal
    ensures GetSensorStatus(Ph, 7.5) == Optimal && GetSensorStatus(Ph, 8.5) == Optimal
  {
  }

  /** Values just outside the warning range are critical. */
  lemma CriticalExamples()
    ensures GetSensorStatus(Temperature, 24.9) == Critical
    ensures GetSensorStatus(Temperature, 32.5) == Critical
    ensures GetSensorStatus(Ammonia, 0.2) == Critical
  {
  }

  /** Every negative value of a zero-floored reading is critical. */
  lemma NegativeReadingsCritical(v: real)
    requires v < 0.0
    ensures forall s :: s in [Ammonia, Nitrite, Nitrate, Turbidity, Tan] ==> GetSensorStatus(s, v) == Critical
  {
  }

  /** A non-critical result lies inside the warning range. */
  lemma StatusSeverityOrder(s: Sensor, v: real)
    ensures GetSensorStatus(s, v) == Warning ==> RuleFor(s).warning.Contains(v)
    ensures GetSensorStatus(s, v) == Optimal ==> RuleFor(s).warning.Contains(v)
  {
    OptimalWithinWarning(s);
  }

  /** No sampled reading is ever critical. */
  lemma SampledNeverCritical(r: seq<real>, s: Sensor)
    requires ValidDraws(r)
    ensures GetSensorStatus(s, GenerateSensorData(r).Get(s)) != Critical
  {
  }

  /** Temperature, pH, dissolved oxygen, salinity and turbidity samples are always optimal. */
  lemma SampledCoreOptimal(r: seq<real>)
    requires ValidDraws(r)
    ensures var d := GenerateSensorData(r);
      && GetSensorStatus(Temperature, d.temperature) == Optimal
      && GetSensorStatus(Ph, d.ph) == Optimal
      && GetSensorStatus(DissolvedOxygen, d.dissolvedOxygen) == Optimal
      && GetSensorStatus(Salinity, d.salinity) == Optimal
      && GetSensorStatus(Turbidity, d.turbidity) == Optimal
  {
  }

  /** The static, editable threshold rows shown on the settings page. */
  const DefaultThresholds: seq<ThresholdSettings> := [
    ThresholdSettings(Temperature, 25.0, 32.0, 26.0, 30.0, "°C"),
    ThresholdSettings(Ph, 7.0, 9.0, 7.5, 8.5, ""),
    ThresholdSettings(DissolvedOxygen, 4.0, 10.0, 5.0, 8.0, "mg/L"),
    ThresholdSettings(Ammonia, 0.0, 0.15, 0.0, 0.05, "mg/L"),
    ThresholdSettings(Nitrite, 0.0, 0.5, 0.0, 0.2, "mg/L"),
    ThresholdSettings(Nitrate, 0.0, 50.0, 0.0, 20.0, "mg/L"),
    ThresholdSettings(Salinity, 18.0, 35.0, 24.0, 28.0, "ppt"),
    ThresholdSettings(Turbidity, 0.0, 30.0, 0.0, 15.0, "NTU"),
    ThresholdSettings(Tan, 0.0, 1.5, 0.0, 0.5, "mg/L")
  ]

  /** The bounds of a row are nested: critical outside, warning inside. */
  predicate BoundsOrdered(t: ThresholdSettings) {
    t.min <= t.warningMin <= t.warningMax <= t.max
  }

  /** Rows of the settings table that belong to sensor `s`. */
  function RowsFor(rows: seq<ThresholdSettings>, s: Sensor): (n: nat)
    ensures n <= |rows|
    ensures n == 0 <==> forall i :: 0 <= i < |rows| ==> rows[i].sensor != s
  {
    if rows == [] then 0
    else (if rows[0].sensor == s then 1 else 0) + RowsFor(rows[1..], s)
  }

  /** The default table has exactly one row per sensor, each with nested bounds. */
  lemma DefaultThresholdsWellFormed()
    ensures |DefaultThresholds| == 9
    ensures forall s: Sensor :: RowsFor(DefaultThresholds, s) == 1
    ensures forall i :: 0 <= i < |DefaultThresholds| ==> DefaultThresholds[i].sensor == AllSensors[i]
    ensures forall i :: 0 <= i < |DefaultThresholds| ==> BoundsOrdered(DefaultThresholds[i])
  {
    var t := DefaultThresholds;
    AllSensorsEnumerates();
    assert forall i :: 0 <= i < |t| ==> t[i].sensor == AllSensors[i];
    forall s: Sensor ensures RowsFor(t, s) == 1 {
      RowsForDistinct(t, s, IndexOf(s));
    }
  }

  /** In a table whose rows name pairwise distinct sensors, a sensor that has a row has exactly one. */
  lemma {:induction false} RowsForDistinct(rows: seq<ThresholdSettings>, s: Sensor, k: nat)
    requires forall i, j :: 0 <= i < j < |rows| ==> rows[i].sensor != rows[j].sensor
    requires k < |rows| && rows[k].sensor == s
    ensures RowsFor(rows, s) == 1
  {
    if k == 0 {
      assert forall i :: 0 <= i < |rows[1..]| ==> rows[1..][i].sensor != s by {
        forall i | 0 <= i < |rows[1..]| ensures rows[1..][i].sensor != s {
          assert rows[1..][i] == rows[i + 1];
        }
      }
    } else {
      RowsForDistinct(rows[1..], s, k - 1);
    }
  }

  /** The tank status the dashboard starts from; its score is a fixed 87. */
  function MockTankStatus(sensors: SensorData, now: Millis): (t: TankStatus)
    ensures t.sensors == sensors && t.lastUpdated == now
    ensures t.healthScore == 87
    ensures |t.alerts| == 2
    ensures t.alerts[0].id == "alert-1" && !t.alerts[0].acknowledged
    ensures t.alerts[1].id == "alert-2" && t.alerts[1].acknowledged
    ensures t.alerts[1].timestamp < t.alerts[0].timestamp < now
  {
    TankStatus(
      id := "tank-001",
      name := "Main Production Tank",
      sensors := sensors,
      shrimpCount := 15000.0,
      shrimpAvgWeight := 12.5,
      shrimpAge := 45.0,
      seaweedBiomass := 125.0,
      lastUpdated := now,
      healthScore := 87,
      alerts := [
        Alert("alert-1", WarningAlert, "Dissolved oxygen trending lower",
              Some("dissolvedOxygen"), Some(4.8), Some(5.0), now - 3600000, false),
        Alert("alert-2", InfoAlert, "Feeding schedule completed",
              None, None, None, now - 7200000, true)
      ])
  }

  /** The control settings the tank control page starts from. */
  const MockControlSettings: ControlSettings := ControlSettings(
    aeratorEnabled := true,
    aeratorSpeed := 75.0,
    waveSimulation := true,
    waveIntensity := 60.0,
    feedingSchedule := [
      FeedingSchedule("feed-1", "06:00", 250.0, "Starter Feed", true),
      FeedingSchedule("feed-2", "12:00", 300.0, "Growth Feed", true),
      FeedingSchedule("feed-3", "18:00", 280.0, "Growth Feed", true),
      FeedingSchedule("feed-4", "22:00", 150.0, "Night Feed", false)
    ],
    tidalSimulation := true,
    tidalPhase := Rising)

  const HourMs: int := 3600000

  /** What one element of the historical series consumes: a clock read, nine sampler draws, a growth draw. */
  datatype HourDraws = HourDraws(clock: Millis, sensors: seq<real>, growth: real)

  /** Clock reads never go backwards along the series. */
  predicate ClockNondecreasing(draws: seq<HourDraws>) {
    forall i, j :: 0 <= i <= j < |draws| ==> draws[i].clock <= draws[j].clock
  }

  /**
   `days * 24` hourly samples; element i is stamped `(days * 24 - i)` hours
   before the clock read made while building it.
   */
  method GenerateHistoricalData(days: nat, draws: seq<HourDraws>) returns (h: seq<HistoricalData>)
    requires |draws| == days * 24
    requires forall i :: 0 <= i < |draws| ==> ValidDraws(draws[i].sensors) && IsDraw(draws[i].growth)
    ensures |h| == days * 24
    ensures forall i :: 0 <= i < |h| ==> h[i].timestamp == draws[i].clock - (days * 24 - i) * HourMs
    ensures forall i :: 0 <= i < |h| ==> h[i].sensors == GenerateSensorData(draws[i].sensors)
    ensures forall i :: 0 <= i < |h| ==> InHalfOpen(h[i].growthRate, 0.02, 0.03)
    ensures forall i :: 0 <= i < |h| ==> h[i].timestamp < draws[i].clock
    ensures ClockNondecreasing(draws) ==>
              forall i, j :: 0 <= i < j < |h| ==> h[i].timestamp < h[j].timestamp
  {
    var n := days * 24;
    h := [];
    var i := 0;
    while i < n
      invariant 0 <= i <= n
      invariant |h| == i
      invariant forall k :: 0 <= k < i ==> h[k].timestamp == draws[k].clock - (n - k) * HourMs
      invariant forall k :: 0 <= k < i ==> h[k].sensors == GenerateSensorData(draws[k].sensors)
      invariant forall k :: 0 <= k < i ==> InHalfOpen(h[k].growthRate, 0.02, 0.03)
    {
      var d := draws[i];
      var entry := HistoricalData(d.clock - (n - i) * HourMs, GenerateSensorData(d.sensors), 0.02 + d.growth * 0.01);
      h := h + [entry];
      i := i + 1;
    }
  }

  /** With a single clock instant the samples are exactly one hour apart and end one hour before it. */
  lemma HistoricalHourlySpacing(days: nat, draws: seq<HourDraws>, h: seq<HistoricalData>, now: Millis)
    requires |draws| == days * 24 == |h|
    requires forall i :: 0 <= i < |draws| ==> draws[i].clock == now
    requires forall i :: 0 <= i < |h| ==> h[i].timestamp == draws[i].clock - (days * 24 - i) * HourMs
    ensures forall i :: 0 <= i < |h| - 1 ==> h[i + 1].timestamp - h[i].timestamp == HourMs
    ensures days > 0 ==> h[|h| - 1].timestamp == now - HourMs && h[0].timestamp == now - days * 24 * HourMs
  {
  }
}
