# Smart-IMTA tank dashboard: telemetry engine model

A Dafny model of the logic inside a client-side aquaculture monitoring
dashboard. The dashboard has no real sensors. It simulates a tank with nine
water-quality readings: temperature, pH, dissolved oxygen, ammonia, nitrite,
nitrate, salinity, turbidity and total ammonia nitrogen (TAN). The model covers:

- the **sensor sampler**: noisy readings around fixed baselines;
- the **status classifier**: a hardcoded table of inclusive optimal and
  warning ranges that maps each reading to optimal, warning or critical;
- the **health scorer**: 100, minus 5 per warning and 15 per critical
  reading, clamped to `[0, 100]`;
- the **tank state store**: the hook's snapshot, tank status, connection flag
  and alert list, changed by refresh, timer tick, acknowledge and add;
- the **pure page-state updates** of the analytics, tank control and settings
  pages.

Readings and other measured quantities are `real`. The health score and the
day count are whole numbers wherever the source sets them, so they are `int`
and `nat`. Timestamps are whole milliseconds. Each `Math.random()` result is a parameter `r` with
`0 <= r < 1`. Each clock read is a parameter. Every React state update is one
atomic replacement of an immutable record.

Files, one per source file:

- `aquaculture.dfy`: the domain types (`module Aquaculture`), with a
  nine-constructor `Sensor` enum standing in for `keyof SensorData`.
- `mock_data.dfy`: the sampler, the classifier table, the default threshold
  rows, the seeded tank status and control settings, and the hourly history
  (`module MockData`).
- `use_sensor_data.dfy`: the scorer (`module HealthScore`), decimal printing
  of the clock for alert ids (`module Decimal`), and the store
  (`module TankStore`).
- `analytics.dfy`, `tank_control.dfy`, `settings.dfy`: the page updates.

Behaviour of the code that the model keeps as written:

- Dissolved oxygen is sampled as `5.5 + r*1.5 - 0.5`, so it lies in
  `[5.0, 6.5)`, not in a range centred on 5.5.
- Alert ids are `alert-<Date.now()>`, so they can collide.
  `AlertIdCollidesIffSameMillisecond` shows that two ids are equal exactly
  when their `Date.now()` reads are equal. The id and the timestamp of a new
  alert come from two separate clock reads, so alerts with different
  timestamps can still share an id (`SameMillisecondAddsCollide`).
- `addAlert` keeps whatever `acknowledged` value the caller passes in, and the
  seeded alert `alert-2` starts out acknowledged. So adding and then
  acknowledging does not leave exactly one newly acknowledged alert in
  general. `AddThenAcknowledge` states what does hold.
- Every sensor key has a classifier rule: with the `Sensor` enum, a key
  without a rule cannot be written.
- The mounted store pairs a separately drawn snapshot with the hardcoded
  score 87, so its score does not match its snapshot. Consistency holds only
  after a refresh (`InitialNotConsistent`).

## Model

| member | source | states |
|---|---|---|
| `Aquaculture.AllSensorsEnumerates` | src/types/aquaculture.ts:10-20 | The key list has nine entries, no duplicates, and contains every sensor key. |
| `MockData.GenerateSensorData` | src/data/mockData.ts:4-14 | With draws in [0,1), each reading lies in its half-open range: temperature [27,29), pH [7.6,8.0), DO [5.0,6.5), ammonia [0.02,0.10), nitrite [0.1,0.25), nitrate [15,25), salinity [25,28), turbidity [10,15), TAN [0.5,0.8). |
| `MockData.OptimalWithinWarning` | src/data/mockData.ts:17-27 | In every row of the classifier table, the optimal range lies inside the warning range. |
| `MockData.GetSensorStatus` | src/data/mockData.ts:16-33 | The classifier is total. It returns optimal exactly when the value is inside the optimal range, warning exactly when it is inside the warning range but outside the optimal range, and critical exactly when it is below or above the warning range. |
| `MockData.OptimalBoundsInclusive` | src/data/mockData.ts:18-30 | Both endpoints of every optimal range are optimal, including temperature 27 and 30 and pH 7.5 and 8.5. |
| `MockData.CriticalExamples` | src/data/mockData.ts:21-32 | Temperature 24.9 and 32.5 and ammonia 0.2 are critical. |
| `MockData.NegativeReadingsCritical` | src/data/mockData.ts:21-32 | Any negative value of ammonia, nitrite, nitrate, turbidity or TAN is critical. |
| `MockData.StatusSeverityOrder` | src/data/mockData.ts:29-32 | A warning or optimal result implies the value is inside the warning range. |
| `MockData.SampledNeverCritical` | src/data/mockData.ts:4-33 | No sampled reading ever classifies as critical. |
| `MockData.SampledCoreOptimal` | src/data/mockData.ts:4-33 | Sampled temperature, pH, dissolved oxygen, salinity and turbidity always classify as optimal. |
| `MockData.DefaultThresholdsWellFormed` | src/data/mockData.ts:148-158 | The default threshold table has nine rows in key order, exactly one row per sensor, each with min ≤ warningMin ≤ warningMax ≤ max. |
| `MockData.MockTankStatus` | src/data/mockData.ts:35-64 | The seeded tank status keeps the given snapshot and clock, has score 87, and has two alerts: alert-1 unacknowledged, and an older alert-2 already acknowledged. |
| `MockData.GenerateHistoricalData` | src/data/mockData.ts:125-131 | Returns days·24 samples. Each sample is stamped (days·24 − i) hours before its own clock read, holds a sampled snapshot, and has a growth rate in [0.02,0.03). Timestamps strictly increase whenever the clock does not go backwards. |
| `MockData.HistoricalHourlySpacing` | src/data/mockData.ts:125-131 | If every clock read gives the same instant, consecutive samples are exactly one hour apart, the last is one hour before that instant, and the first is days·24 hours before it. |
| `HealthScore.Deduction` | src/hooks/useSensorData.ts:36-43 | The points lost over any key list are between 0 and 15 per key and are a multiple of 5. |
| `HealthScore.Clamp` | src/hooks/useSensorData.ts:45 | The result is in [0,100], equals the input inside that range, and equals the nearer bound outside it. |
| `HealthScore.ScoreOver` | src/hooks/useSensorData.ts:37-45 | The clamped score after visiting any key list is a multiple of 5 in [0,100]. |
| `HealthScore.CalculateHealthScore` | src/hooks/useSensorData.ts:35-46 | The score of every snapshot is a multiple of 5 in [0,100]. |
| `HealthScore.ScoreMatchesReference` | src/hooks/useSensorData.ts:35-46 | The score equals clamp(100 − 5·#warning − 15·#critical), where the counts are sizes of the sets of sensors with each status. |
| `HealthScore.DeductionOrderIndependent` | src/hooks/useSensorData.ts:36-43 | Any two key lists that are permutations of each other lose the same number of points. |
| `HealthScore.ScoreOrderIndependent` | src/hooks/useSensorData.ts:36-45 | Visiting the nine keys in any order gives the same score. |
| `HealthScore.AllOptimalScores100` | src/hooks/useSensorData.ts:38-45 | A snapshot with all nine readings optimal scores 100. |
| `HealthScore.AllCriticalScores0` | src/hooks/useSensorData.ts:38-45 | A snapshot with all nine readings critical loses 135 points and scores 0. |
| `HealthScore.ScenarioScores` | src/hooks/useSensorData.ts:38-45 | With dissolved oxygen at 4.5 (warning) and everything else optimal, the score is 95. Setting ammonia to 0.2 (critical) as well gives 80. |
| `HealthScore.SampledScoreAtLeast80` | src/hooks/useSensorData.ts:35-46 | Every sampled snapshot scores at least 80. |
| `HealthScore.SeededScoreNeverComputed` | src/data/mockData.ts:44 | No snapshot scores 87, the hardcoded seed score. |
| `Decimal.NatToString` | src/hooks/useSensorData.ts:60 | A number prints as at least one decimal digit and nothing else, and as exactly one digit when it is below 10. |
| `Decimal.IntToStringInjective` | src/hooks/useSensorData.ts:60 | Two integers print to the same string exactly when they are equal. |
| `TankStore.Initial` | src/hooks/useSensorData.ts:5-9 | The mounted state is connected. Its hook snapshot and tank snapshot come from two separate draws, it has the seed score 87, and it carries the load and mount times. |
| `TankStore.Refresh` | src/hooks/useSensorData.ts:11-23 | A refresh makes both snapshots the same new draw, sets both timestamps to the clock read, and sets the score to the computed one. Identity, livestock metrics, alerts and the connection flag are unchanged. |
| `TankStore.Tick` | src/hooks/useSensorData.ts:25-30 | A disconnected tick changes nothing. A connected tick leaves the state consistent and stamped with the clock read. Neither changes the connection flag or the tank identity. |
| `TankStore.SetConnected` | src/hooks/useSensorData.ts:8 | Sets the connection flag and changes nothing else. |
| `TankStore.Ticks` | src/hooks/useSensorData.ts:25-30 | Any run of disconnected ticks leaves the state unchanged. A non-empty run of connected ticks ends consistent and stamped with the last clock read. |
| `TankStore.AcknowledgeAlerts` | src/hooks/useSensorData.ts:51-53 | Length and order are kept. Alerts with the given id become acknowledged with every other field kept. All other alerts are untouched. |
| `TankStore.AcknowledgeAlert` | src/hooks/useSensorData.ts:48-55 | Only the alert list of the store changes, and it changes by acknowledging the id. |
| `TankStore.AcknowledgeMonotoneIdempotent` | src/hooks/useSensorData.ts:51-53 | Acknowledging never clears a flag. After it, an alert is acknowledged exactly when it already was or it has the id. Acknowledging twice equals acknowledging once. |
| `TankStore.AcknowledgeUnknownIsNoop` | src/hooks/useSensorData.ts:48-55 | Acknowledging an id that no alert has leaves the store unchanged. |
| `TankStore.AlertId` | src/hooks/useSensorData.ts:60 | Every generated id begins with "alert-" followed by at least one character. |
| `TankStore.AlertIdCollidesIffSameMillisecond` | src/hooks/useSensorData.ts:60 | Two generated ids are equal exactly when their clock reads are equal. |
| `TankStore.AddAlert` | src/hooks/useSensorData.ts:57-67 | The alert list grows by one. The new alert is at the head and the old list follows unchanged. The id comes from the `Date.now()` read and the timestamp from the separate `new Date()` read. Type, message, provenance and acknowledged are the caller's. Nothing else in the store changes. |
| `TankStore.AddThenAcknowledge` | src/hooks/useSensorData.ts:48-67 | Adding and then acknowledging the new id acknowledges the new alert. Among the older alerts, only those sharing its id change: an older generated alert whose id was read in a different millisecond is untouched, whatever its timestamp. |
| `TankStore.SameMillisecondAddsCollide` | src/hooks/useSensorData.ts:57-67 | Two alerts whose ids are read in the same millisecond share an id even when their timestamps differ, so acknowledging one acknowledges both. |
| `TankStore.ScoreAlwaysInRange` | src/hooks/useSensorData.ts:11-67 | Refresh, tick, acknowledge, add and set-connected all keep the stored score in [0,100]. |
| `TankStore.OperationsPreserveConsistency` | src/hooks/useSensorData.ts:11-67 | From a consistent state, where the score matches the snapshots, tick, acknowledge, add and set-connected all keep it consistent. |
| `TankStore.InitialNotConsistent` | src/hooks/useSensorData.ts:6-7 | The mounted state is connected and in range, but its score never matches its snapshot. |
| `Analytics.InitialSelectionDistinct` | src/pages/Analytics.tsx:17 | The page opens charting three distinct sensors: temperature, dissolved oxygen and pH. |
| `Analytics.Days` | src/pages/Analytics.tsx:16-19 | Each time range requests 1, 7, 30 or 90 days, and the default range requests 1. |
| `Analytics.DaysMatchLabels` | src/pages/Analytics.tsx:19 | 24h maps to 1, 7d to 7, 30d to 30 and 90d to 90, and no two ranges map to the same number. |
| `Analytics.Without` | src/pages/Analytics.tsx:24 | Removing a sensor deletes every occurrence of it. The other sensors keep their counts and their relative order. |
| `Analytics.ToggleSensor` | src/pages/Analytics.tsx:21-27 | A selected sensor is removed and the rest keep their order. An unselected sensor is appended after the unchanged list. Membership and counts of every other sensor are unchanged. |
| `Analytics.ToggleKeepsNoDuplicates` | src/pages/Analytics.tsx:21-27 | A duplicate-free selection stays duplicate-free. |
| `Analytics.ToggleAbsentTwice` | src/pages/Analytics.tsx:21-27 | Toggling an unselected sensor twice restores the original list. |
| `Analytics.TogglePresentTwice` | src/pages/Analytics.tsx:21-27 | Toggling a selected sensor twice moves it to the end. |
| `TankControl.UpdateSetting` | src/pages/TankControl.tsx:18-20 | The updated key holds the new value and every other key is unchanged. |
| `TankControl.UpdateSettingAlgebra` | src/pages/TankControl.tsx:18-20 | The last write to a key wins. Writes to different keys commute. Writing the value a key already holds changes nothing. |
| `TankControl.ToggleFeedingSchedule` | src/pages/TankControl.tsx:22-29 | Schedules with the id have `enabled` flipped and all their other fields kept. Other schedules, list length and order, and every other setting are unchanged. |
| `TankControl.ToggleFeedingScheduleInvolution` | src/pages/TankControl.tsx:25-27 | Toggling the same id twice restores the settings. |
| `TankControl.ToggleUnknownScheduleIsNoop` | src/pages/TankControl.tsx:25-27 | Toggling an id that no schedule has leaves the settings unchanged. |
| `TankControl.SelectTidalPhase` | src/pages/TankControl.tsx:171-174 | Pressing a phase button sets the phase it shows (low, rising, high or falling) and changes nothing else. |
| `TankControl.TidalPhaseButtonsCoverPhases` | src/pages/TankControl.tsx:31 | There is exactly one button per tidal phase. |
| `TankControl.InitialControlSettings` | src/data/mockData.ts:133-146 | The page starts with four feeding schedules, only the last disabled, and the phase set to rising. |
| `SettingsPage.SetField` | src/pages/Settings.tsx:26 | Writes the given bound and keeps sensor, unit and the other three bounds. |
| `SettingsPage.UpdateThreshold` | src/pages/Settings.tsx:24-28 | Rows for the sensor get the new value in that bound and keep everything else. Other rows are identical. Length, order, sensor and unit of every row are kept. |
| `SettingsPage.UpdateThresholdLastWriteWins` | src/pages/Settings.tsx:24-28 | Writing the same bound twice keeps only the last value. Writing the value it already holds changes nothing. |
| `SettingsPage.UpdateThresholdCanBreakOrdering` | src/pages/Settings.tsx:105-136 | Edits are not validated: one edit (temperature min set to 40) makes a well-ordered default row violate min ≤ warningMin. |
| `SettingsPage.InitialNotificationFlags` | src/pages/Settings.tsx:15-22 | Email, push, critical and warnings start on. SMS and info start off. |
| `SettingsPage.SetNotification` | src/pages/Settings.tsx:161-227 | Each switch sets its own flag and leaves the other five unchanged. |
| `SettingsPage.SetNotificationRestores` | src/pages/Settings.tsx:161-227 | Setting a switch back to its old value restores the whole record. |

## Left out

- Rendering: JSX, animation, charts, icons, routing and layout. This includes
  every presentation-only page and component, and render-time values such as
  health colour bands, unread counts and alert-panel slicing.
- Randomness and clocks are parameters. There is no random source or wall
  clock in the model.
- Timer registration and cleanup (`setInterval`/`clearInterval`, and the
  5000 ms interval) are not modelled. A tick is a step that takes the
  connection flag into account.
- Floating point: readings are exact reals. The sampler's half-open upper
  bounds hold for exact arithmetic. With binary rounding, a draw just below 1
  can land exactly on the upper endpoint, and each such endpoint classifies
  as the values just below it do. NaN has no counterpart in `real`. In the source, a
  NaN reading would be critical, and a NaN threshold edit (from `parseFloat`
  of empty input) would be stored as is.
- Growth predictions using `Math.pow`, SHAP bar widths, and number/date
  formatting: floating-point display code.
- TankStore.Refresh: `refreshData` reads the clock twice, once for the
  hook's `lastUpdate` and once for the tank's `lastUpdated`. The model uses one
  read for both, so it states they are equal. In the source they can differ by
  the time between the two reads.
- TankStore.Initial: the seeded alerts' timestamps use their own clock
  reads. The model derives them from the single load-time read.
- TankControl.UpdateSetting: slider values are bounded to 0–100 in steps of
  5 by the UI widget, not by the update. The model accepts any real, as the
  update does.
- React batching and hook identity: each `setState` is treated as a
  sequential, atomic replacement. In particular, the three state updates of a
  refresh are treated as one step.
- The classifier never reads the settings page's threshold rows. Those edits
  stay in page state, so the model keeps the two tables separate.
