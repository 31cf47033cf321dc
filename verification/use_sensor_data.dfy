/**
 The health scorer: every reading is classified, each warning costs 5 points
 and each critical reading 15, starting from 100, and the result is clamped
 to `[0, 100]`.
 */
module HealthScore {
  import opened Aquaculture
  import opened MockData

  /** Points one classification costs. */
  function Penalty(st: Status): int {
    match st
    case Optimal => 0
    case Warning => 5
    case Critical => 15
  }

  /** Points the reading of `d` under key `k` costs. */
  function KeyPenalty(k: Sensor, d: SensorData): int {
    Penalty(GetSensorStatus(k, d.Get(k)))
  }

  /** Points lost while visiting the readings of `d` under `keys`, in order. */
  function Deduction(keys: seq<Sensor>, d: SensorData): (n: int)
    ensures 0 <= n <= 15 * |keys|
    ensures n % 5 == 0
  {
    if keys == [] then 0
    else KeyPenalty(keys[0], d) + Deduction(keys[1..], d)
  }

  function Clamp(x: int): (r: int)
    ensures 0 <= r <= 100
    ensures 0 <= x <= 100 ==> r == x
    ensures x < 0 ==> r == 0
    ensures 100 < x ==> r == 100
  {
    if x < 0 then 0 else if 100 < x then 100 else x
  }

  /** The score of a snapshot: a multiple of 5 in `[0, 100]`. */
  function CalculateHealthScore(d: SensorData): (score: int)
    ensures 0 <= score <= 100
    ensures score % 5 == 0
  {
    ScoreOver(AllSensors, d)
  }

  /** The score reached after visiting `keys`, clamped. */
  function ScoreOver(keys: seq<Sensor>, d: SensorData): (score: int)
    ensures 0 <= score <= 100
    ensures score % 5 == 0
  {
    Clamp(100 - Deduction(keys, d))
  }

  /** The sensors of `d` whose reading classifies as `st`. */
  function SensorsWith(d: SensorData, st: Status): set<Sensor> {
    set s | s in AllSensors && GetSensorStatus(s, d.Get(s)) == st
  }

  /** The score as a count of warning and critical sensors: `clamp(100 - 5 * #warning - 15 * #critical)`. */
  function ReferenceScore(d: SensorData): int {
    Clamp(100 - 5 * |SensorsWith(d, Warning)| - 15 * |SensorsWith(d, Critical)|)
  }

  /** The keys in `keys` whose reading classifies as `st`. */
  function KeysWith(keys: seq<Sensor>, d: SensorData, st: Status): set<Sensor> {
    set s | s in keys && GetSensorStatus(s, d.Get(s)) == st
  }

  lemma {:induction false} DeductionCounts(keys: seq<Sensor>, d: SensorData)
    requires NoDuplicates(keys)
    ensures Deduction(keys, d) == 5 * |KeysWith(keys, d, Warning)| + 15 * |KeysWith(keys, d, Critical)|
  {
    if keys == [] {
      assert KeysWith(keys, d, Warning) == {};
      assert KeysWith(keys, d, Critical) == {};
    } else {
      var k, rest := keys[0], keys[1..];
      assert NoDuplicates(rest) by {
        forall i, j | 0 <= i < j < |rest| ensures rest[i] != rest[j] {
          assert rest[i] == keys[i + 1] && rest[j] == keys[j + 1];
        }
      }
      assert k !in rest by {
        forall i | 0 <= i < |rest| ensures rest[i] != k {
          assert rest[i] == keys[i + 1];
        }
      }
      DeductionCounts(rest, d);
      KeysWithCons(keys, d, Warning);
      KeysWithCons(keys, d, Critical);
    }
  }

  /** Splitting off the first key of a duplicate-free list splits the status sets the same way. */
  lemma KeysWithCons(keys: seq<Sensor>, d: SensorData, t: Status)
    requires keys != [] && keys[0] !in keys[1..]
    ensures |KeysWith(keys, d, t)| ==
      (if GetSensorStatus(keys[0], d.Get(keys[0])) == t then 1 else 0) + |KeysWith(keys[1..], d, t)|
  {
    var k, rest := keys[0], keys[1..];
    var head: set<Sensor> := if GetSensorStatus(k, d.Get(k)) == t then {k} else {};
    assert forall s :: s in keys <==> s == k || s in rest by {
      assert keys == [k] + rest;
    }
    assert KeysWith(keys, d, t) == head + KeysWith(rest, d, t);
    assert head !! KeysWith(rest, d, t);
  }

  /** The scorer agrees with the counting definition on every snapshot. */
  lemma ScoreMatchesReference(d: SensorData)
    ensures CalculateHealthScore(d) == ReferenceScore(d)
  {
    AllSensorsEnumerates();
    DeductionCounts(AllSensors, d);
    assert KeysWith(AllSensors, d, Warning) == SensorsWith(d, Warning);
    assert KeysWith(AllSensors, d, Critical) == SensorsWith(d, Critical);
  }

  lemma {:induction false} DeductionConcat(a: seq<Sensor>, b: seq<Sensor>, d: SensorData)
    ensures Deduction(a + b, d) == Deduction(a, d) + Deduction(b, d)
  {
    if a == [] {
      assert a + b == b;
    } else {
      assert (a + b)[1..] == a[1..] + b;
      DeductionConcat(a[1..], b, d);
    }
  }

  /** Points lost for the key at position `i`, plus the points lost for the other keys. */
  lemma DeductionRemoveAt(b: seq<Sensor>, i: nat, d: SensorData)
    requires i < |b|
    ensures Deduction(b, d) == KeyPenalty(b[i], d) + Deduction(b[..i] + b[i + 1..], d)
  {
    assert b == b[..i] + [b[i]] + b[i + 1..];
    DeductionConcat(b[..i] + [b[i]], b[i + 1..], d);
    DeductionConcat(b[..i], [b[i]], d);
    DeductionConcat(b[..i], b[i + 1..], d);
  }

  /** Removing the same element from two permutations of each other leaves permutations. */
  lemma RemoveMatchingKeepsMultiset<T>(a: seq<T>, b: seq<T>, i: nat)
    requires multiset(a) == multiset(b)
    requires a != [] && i < |b| && b[i] == a[0]
    ensures multiset(a[1..]) == multiset(b[..i] + b[i + 1..])
  {
    assert a == [a[0]] + a[1..];
    assert b == b[..i] + [b[i]] + b[i + 1..];
    assert multiset(a) == multiset([a[0]]) + multiset(a[1..]);
    assert multiset(b) == multiset(b[..i]) + multiset([b[i]]) + multiset(b[i + 1..]);
    assert multiset(b[..i] + b[i + 1..]) == multiset(b[..i]) + multiset(b[i + 1..]);
    forall x ensures multiset(a[1..])[x] == multiset(b[..i] + b[i + 1..])[x] {
      assert multiset(a)[x] == multiset([a[0]])[x] + multiset(a[1..])[x];
    }
  }

  lemma IndexIn<T>(b: seq<T>, k: T) returns (i: nat)
    requires k in multiset(b)
    ensures i < |b| && b[i] == k
  {
    i :| 0 <= i < |b| && b[i] == k;
  }

  /** The deduction does not depend on the order in which keys are visited. */
  lemma {:induction false} DeductionOrderIndependent(a: seq<Sensor>, b: seq<Sensor>, d: SensorData)
    requires multiset(a) == multiset(b)
    ensures Deduction(a, d) == Deduction(b, d)
  {
    if a == [] {
      assert |b| == |multiset(b)| == 0;
    } else {
      var k := a[0];
      var i := IndexIn(b, k);
      var b' := b[..i] + b[i + 1..];
      RemoveMatchingKeepsMultiset(a, b, i);
      DeductionOrderIndependent(a[1..], b', d);
      DeductionRemoveAt(b, i, d);
    }
  }

  /** Visiting the nine keys in any order yields the same score. */
  lemma ScoreOrderIndependent(keys: seq<Sensor>, d: SensorData)
    requires multiset(keys) == multiset(AllSensors)
    ensures ScoreOver(keys, d) == CalculateHealthScore(d)
  {
    DeductionOrderIndependent(keys, AllSensors, d);
  }

  /** The sum of the nine penalties, written out. */
  lemma DeductionUnrolled(d: SensorData)
    ensures Deduction(AllSensors, d) ==
      Penalty(GetSensorStatus(Temperature, d.temperature)) + Penalty(GetSensorStatus(Ph, d.ph))
      + Penalty(GetSensorStatus(DissolvedOxygen, d.dissolvedOxygen)) + Penalty(GetSensorStatus(Ammonia, d.ammonia))
      + Penalty(GetSensorStatus(Nitrite, d.nitrite)) + Penalty(GetSensorStatus(Nitrate, d.nitrate))
      + Penalty(GetSensorStatus(Salinity, d.salinity)) + Penalty(GetSensorStatus(Turbidity, d.turbidity))
      + Penalty(GetSensorStatus(Tan, d.tan))
  {
    var a := AllSensors;
    assert Deduction(a[8..], d) == Penalty(GetSensorStatus(Tan, d.tan));
    assert a[7..] == [Turbidity] + a[8..];
    assert a[6..] == [Salinity] + a[7..];
    assert a[5..] == [Nitrate] + a[6..];
    assert a[4..] == [Nitrite] + a[5..];
    assert a[3..] == [Ammonia] + a[4..];
    assert a[2..] == [DissolvedOxygen] + a[3..];
    assert a[1..] == [Ph] + a[2..];
    assert Deduction(a[7..], d) == Penalty(GetSensorStatus(Turbidity, d.turbidity)) + Deduction(a[8..], d);
    assert Deduction(a[6..], d) == Penalty(GetSensorStatus(Salinity, d.salinity)) + Deduction(a[7..], d);
    assert Deduction(a[5..], d) == Penalty(GetSensorStatus(Nitrate, d.nitrate)) + Deduction(a[6..], d);
    assert Deduction(a[4..], d) == Penalty(GetSensorStatus(Nitrite, d.nitrite)) + Deduction(a[5..], d);
    assert Deduction(a[3..], d) == Penalty(GetSensorStatus(Ammonia, d.ammonia)) + Deduction(a[4..], d);
    assert Deduction(a[2..], d) == Penalty(GetSensorStatus(DissolvedOxygen, d.dissolvedOxygen)) + Deduction(a[3..], d);
    assert Deduction(a[1..], d) == Penalty(GetSensorStatus(Ph, d.ph)) + Deduction(a[2..], d);
  }

  /** All nine optimal scores 100. */
  lemma AllOptimalScores100(d: SensorData)
    requires forall s :: GetSensorStatus(s, d.Get(s)) == Optimal
    ensures CalculateHealthScore(d) == 100
  {
    ScoreMatchesReference(d);
    assert SensorsWith(d, Warning) == {};
    assert SensorsWith(d, Critical) == {};
  }

  /** All nine critical scores 0: `100 - 9 * 15 = -35` is clamped. */
  lemma AllCriticalScores0(d: SensorData)
    requires forall s :: GetSensorStatus(s, d.Get(s)) == Critical
    ensures Deduction(AllSensors, d) == 135
    ensures CalculateHealthScore(d) == 0
  {
    DeductionUnrolled(d);
    assert GetSensorStatus(Temperature, d.Get(Temperature)) == Critical;
    assert GetSensorStatus(Ph, d.Get(Ph)) == Critical;
    assert GetSensorStatus(DissolvedOxygen, d.Get(DissolvedOxygen)) == Critical;
    assert GetSensorStatus(Ammonia, d.Get(Ammonia)) == Critical;
    assert GetSensorStatus(Nitrite, d.Get(Nitrite)) == Critical;
    assert GetSensorStatus(Nitrate, d.Get(Nitrate)) == Critical;
    assert GetSensorStatus(Salinity, d.Get(Salinity)) == Critical;
    assert GetSensorStatus(Turbidity, d.Get(Turbidity)) == Critical;
    assert GetSensorStatus(Tan, d.Get(Tan)) == Critical;
  }

  /** The worked example: dissolved oxygen 4.5 alone is a warning (95); ammonia 0.2 adds a critical (80). */
  lemma ScenarioScores()
    ensures var d := SensorData(28.0, 7.8, 4.5, 0.03, 0.1, 10.0, 26.0, 8.0, 0.4);
      && GetSensorStatus(DissolvedOxygen, d.dissolvedOxygen) == Warning
      && CalculateHealthScore(d) == 95
      && CalculateHealthScore(d.(ammonia := 0.2)) == 80
  {
    var d := SensorData(28.0, 7.8, 4.5, 0.03, 0.1, 10.0, 26.0, 8.0, 0.4);
    DeductionUnrolled(d);
    DeductionUnrolled(d.(ammonia := 0.2));
  }

  /** A sampled snapshot loses at most 5 points on each of its four non-core readings. */
  lemma SampledScoreAtLeast80(r: seq<real>)
    requires ValidDraws(r)
    ensures CalculateHealthScore(GenerateSensorData(r)) >= 80
  {
    var d := GenerateSensorData(r);
    DeductionUnrolled(d);
    SampledCoreOptimal(r);
    SampledNeverCritical(r, Ammonia);
    SampledNeverCritical(r, Nitrite);
    SampledNeverCritical(r, Nitrate);
    SampledNeverCritical(r, Tan);
  }

  /** The seeded score 87 is never a computed score. */
  lemma SeededScoreNeverComputed(d: SensorData)
    ensures CalculateHealthScore(d) != 87
  {
  }
}

/** Decimal rendering of the millisecond clock, as a template literal prints it. */
module Decimal {

  function Digit(n: nat): (c: char)
    requires n < 10
    ensures '0' <= c <= '9'
    ensures c as int - '0' as int == n
  {
    ('0' as int + n) as char
  }

  /** Decimal digits of `n`, most significant first, without leading zeros. */
  function NatToString(n: nat): (s: string)
    ensures |s| >= 1
    ensures forall i :: 0 <= i < |s| ==> '0' <= s[i] <= '9'
    ensures n < 10 <==> |s| == 1
  {
    if n < 10 then [Digit(n)] else NatToString(n / 10) + [Digit(n % 10)]
  }

  function IntToString(n: int): (s: string) {
    if n < 0 then "-" + NatToString(-n) else NatToString(n)
  }

  /** Distinct numbers print as distinct strings. */
  lemma {:induction false} NatToStringInjective(a: nat, b: nat)
    requires NatToString(a) == NatToString(b)
    ensures a == b
  {
    var sa, sb := NatToString(a), NatToString(b);
    if a >= 10 && b >= 10 {
      assert sa[|sa| - 1] == Digit(a % 10) && sb[|sb| - 1] == Digit(b % 10);
      assert sa[..|sa| - 1] == NatToString(a / 10);
      assert sb[..|sb| - 1] == NatToString(b / 10);
      NatToStringInjective(a / 10, b / 10);
    }
  }

  /** A rendering starts with a minus sign exactly for negative numbers. */
  lemma IntToStringSign(n: int)
    ensures |IntToString(n)| >= 1
    ensures IntToString(n)[0] == '-' <==> n < 0
  {
  }

  lemma IntToStringInjective(a: int, b: int)
    ensures IntToString(a) == IntToString(b) <==> a == b
  {
    if IntToString(a) == IntToString(b) {
      IntToStringSign(a);
      IntToStringSign(b);
      if a < 0 {
        assert IntToString(a)[1..] == NatToString(-a);
        assert IntToString(b)[1..] == NatToString(-b);
        NatToStringInjective(-a, -b);
      } else {
        NatToStringInjective(a, b);
      }
    }
  }
}

/**
 The tank state store: the hook's sensor snapshot, tank status, connection
 flag and last-update time, with the operations the dashboard calls. Each
 React state update is an atomic replacement of the record.
 */
module TankStore {
  import opened Aquaculture
  import opened MockData
  import opened HealthScore
  import Decimal

  datatype Store = Store(
    sensorData: SensorData,
    tankStatus: TankStatus,
    isConnected: bool,
    lastUpdate: Millis)

  /** The argument of `addAlert`: an alert without `id` and `timestamp`. */
  datatype AlertDraft = AlertDraft(
    kind: AlertType,
    message: string,
    sensor: Option<string>,
    value: Option<real>,
    threshold: Option<real>,
    acknowledged: bool)

  /**
   The state at mount: the module-load tank status (its own snapshot drawn
   from `tankDraws`, stamped `loadTime`) beside a separately drawn hook
   snapshot, connected, stamped `mountTime`.
   */
  function Initial(tankDraws: seq<real>, hookDraws: seq<real>, loadTime: Millis, mountTime: Millis): (s: Store)
    requires ValidDraws(tankDraws) && ValidDraws(hookDraws)
    ensures s.isConnected
    ensures s.tankStatus.healthScore == 87
    ensures s.sensorData == GenerateSensorData(hookDraws)
    ensures s.tankStatus.sensors == GenerateSensorData(tankDraws)
    ensures s.lastUpdate == mountTime && s.tankStatus.lastUpdated == loadTime
  {
    Store(GenerateSensorData(hookDraws), MockTankStatus(GenerateSensorData(tankDraws), loadTime), true, mountTime)
  }

  /** Score and snapshots agree: what a refresh establishes. */
  predicate Consistent(s: Store) {
    && s.sensorData == s.tankStatus.sensors
    && s.tankStatus.healthScore == CalculateHealthScore(s.tankStatus.sensors)
    && s.lastUpdate == s.tankStatus.lastUpdated
  }

  /** The score field stays in `[0, 100]`. */
  predicate ScoreInRange(s: Store) {
    0 <= s.tankStatus.healthScore <= 100
  }

  /** Everything of the tank status, alerts included, except the snapshot, timestamp and score. */
  predicate SameExceptReadings(a: TankStatus, b: TankStatus) {
    && a.id == b.id && a.name == b.name
    && a.shrimpCount == b.shrimpCount && a.shrimpAvgWeight == b.shrimpAvgWeight
    && a.shrimpAge == b.shrimpAge && a.seaweedBiomass == b.seaweedBiomass
    && a.alerts == b.alerts
  }

  /** Replaces both snapshots, both timestamps and the score from one draw. */
  function Refresh(s: Store, r: seq<real>, now: Millis): (t: Store)
    requires ValidDraws(r)
    ensures Consistent(t) && ScoreInRange(t)
    ensures t.sensorData == GenerateSensorData(r)
    ensures t.lastUpdate == now
    ensures SameExceptReadings(s.tankStatus, t.tankStatus)
    ensures t.isConnected == s.isConnected
  {
    var newData := GenerateSensorData(r);
    s.(sensorData := newData,
       lastUpdate := now,
       tankStatus := s.tankStatus.(sensors := newData, lastUpdated := now,
                                   healthScore := CalculateHealthScore(newData)))
  }

  /** One timer tick: refreshes only while connected. */
  function Tick(s: Store, r: seq<real>, now: Millis): (t: Store)
    requires ValidDraws(r)
    ensures !s.isConnected ==> t == s
    ensures s.isConnected ==> Consistent(t) && t.lastUpdate == now && t.sensorData == GenerateSensorData(r)
    ensures t.isConnected == s.isConnected
    ensures SameExceptReadings(s.tankStatus, t.tankStatus)
  {
    if s.isConnected then Refresh(s, r, now) else s
  }

  function SetConnected(s: Store, connected: bool): (t: Store)
    ensures t.isConnected == connected
    ensures t.(isConnected := s.isConnected) == s
  {
    s.(isConnected := connected)
  }

  /** Ticks of the timer while the flag stays fixed, one draw and clock read per tick. */
  function Ticks(s: Store, rs: seq<seq<real>>, clocks: seq<Millis>): (t: Store)
    requires |rs| == |clocks|
    requires forall i :: 0 <= i < |rs| ==> ValidDraws(rs[i])
    ensures t.isConnected == s.isConnected
    ensures !s.isConnected ==> t == s
    ensures s.isConnected && |rs| > 0 ==> Consistent(t) && t.lastUpdate == clocks[|clocks| - 1]
    decreases |rs|
  {
    if rs == [] then s
    else Tick(Ticks(s, rs[..|rs| - 1], clocks[..|clocks| - 1]), rs[|rs| - 1], clocks[|clocks| - 1])
  }

  /** Marks every alert carrying `id` as acknowledged. */
  function AcknowledgeAlerts(alerts: seq<Alert>, id: string): (r: seq<Alert>)
    ensures |r| == |alerts|
    ensures forall i :: 0 <= i < |r| && alerts[i].id == id ==> r[i] == alerts[i].(acknowledged := true)
    ensures forall i :: 0 <= i < |r| && alerts[i].id != id ==> r[i] == alerts[i]
  {
    seq(|alerts|, i requires 0 <= i < |alerts| =>
      if alerts[i].id == id then alerts[i].(acknowledged := true) else alerts[i])
  }

  function AcknowledgeAlert(s: Store, id: string): (t: Store)
    ensures t.tankStatus.alerts == AcknowledgeAlerts(s.tankStatus.alerts, id)
    ensures t.tankStatus.(alerts := s.tankStatus.alerts) == s.tankStatus
    ensures t.(tankStatus := s.tankStatus) == s
  {
    s.(tankStatus := s.tankStatus.(alerts := AcknowledgeAlerts(s.tankStatus.alerts, id)))
  }

  /** Acknowledging never clears a flag, and acknowledging twice is acknowledging once. */
  lemma AcknowledgeMonotoneIdempotent(alerts: seq<Alert>, id: string)
    ensures var r := AcknowledgeAlerts(alerts, id);
      && (forall i :: 0 <= i < |r| ==> (alerts[i].acknowledged ==> r[i].acknowledged))
      && (forall i :: 0 <= i < |r| ==> (r[i].acknowledged <==> alerts[i].acknowledged || alerts[i].id == id))
      && AcknowledgeAlerts(r, id) == r
  {
  }

  /** Acknowledging an id no alert carries changes nothing. */
  lemma AcknowledgeUnknownIsNoop(s: Store, id: string)
    requires forall i :: 0 <= i < |s.tankStatus.alerts| ==> s.tankStatus.alerts[i].id != id
    ensures AcknowledgeAlert(s, id) == s
  {
    assert AcknowledgeAlerts(s.tankStatus.alerts, id) == s.tankStatus.alerts;
  }

  /** The id template `alert-<milliseconds>`. */
  function AlertId(now: Millis): (id: string)
    ensures |id| > 6 && id[..6] == "alert-"
  {
    "alert-" + Decimal.IntToString(now)
  }

  /** Two generated ids coincide exactly when they were made in the same millisecond. */
  lemma AlertIdCollidesIffSameMillisecond(a: Millis, b: Millis)
    ensures AlertId(a) == AlertId(b) <==> a == b
  {
    if AlertId(a) == AlertId(b) {
      assert AlertId(a)[6..] == Decimal.IntToString(a);
      assert AlertId(b)[6..] == Decimal.IntToString(b);
    }
    Decimal.IntToStringInjective(a, b);
  }

  /**
   Prepends the draft. The id comes from the read `idNow` of `Date.now()` and
   the timestamp from the separate read `now` of `new Date()`.
   */
  function AddAlert(s: Store, draft: AlertDraft, idNow: Millis, now: Millis): (t: Store)
    ensures var before := s.tankStatus.alerts; var after := t.tankStatus.alerts;
      && |after| == |before| + 1
      && after[1..] == before
      && after[0].id == AlertId(idNow) && after[0].timestamp == now
      && after[0].kind == draft.kind && after[0].message == draft.message
      && after[0].sensor == draft.sensor && after[0].value == draft.value
      && after[0].threshold == draft.threshold && after[0].acknowledged == draft.acknowledged
    ensures t.tankStatus.(alerts := s.tankStatus.alerts) == s.tankStatus
    ensures t.(tankStatus := s.tankStatus) == s
  {
    var alert := Alert(AlertId(idNow), draft.kind, draft.message, draft.sensor, draft.value,
                       draft.threshold, now, draft.acknowledged);
    s.(tankStatus := s.tankStatus.(alerts := [alert] + s.tankStatus.alerts))
  }

  /**
   Adding then acknowledging the new id acknowledges the new alert, and among
   the older alerts only those sharing its id: an older generated alert whose
   id was read in a different millisecond is untouched, whatever its timestamp.
   */
  lemma AddThenAcknowledge(s: Store, draft: AlertDraft, idNow: Millis, now: Millis)
    ensures var t := AcknowledgeAlert(AddAlert(s, draft, idNow, now), AlertId(idNow));
      var before := s.tankStatus.alerts; var after := t.tankStatus.alerts;
      && after[0].acknowledged && after[0].timestamp == now
      && after[1..] == AcknowledgeAlerts(before, AlertId(idNow))
      && (forall i, m :: 0 <= i < |before| && before[i].id == AlertId(m) && m != idNow ==> after[i + 1] == before[i])
  {
    var t := AcknowledgeAlert(AddAlert(s, draft, idNow, now), AlertId(idNow));
    var before := s.tankStatus.alerts;
    forall i, m | 0 <= i < |before| && before[i].id == AlertId(m) && m != idNow
      ensures t.tankStatus.alerts[i + 1] == before[i]
    {
      AlertIdCollidesIffSameMillisecond(m, idNow);
    }
  }

  /**
   Two alerts whose ids are read in the same millisecond share an id even when
   their timestamps differ, so acknowledging one acknowledges both.
   */
  lemma SameMillisecondAddsCollide(s: Store, d1: AlertDraft, d2: AlertDraft, idNow: Millis, now1: Millis, now2: Millis)
    ensures var t := AddAlert(AddAlert(s, d1, idNow, now1), d2, idNow, now2);
      && t.tankStatus.alerts[0].id == t.tankStatus.alerts[1].id
      && t.tankStatus.alerts[0].timestamp == now2 && t.tankStatus.alerts[1].timestamp == now1
      && var u := AcknowledgeAlert(t, AlertId(idNow));
         u.tankStatus.alerts[0].acknowledged && u.tankStatus.alerts[1].acknowledged
  {
  }

  /** Every store operation keeps an in-range score in range. */
  lemma ScoreAlwaysInRange(s: Store, r: seq<real>, idNow: Millis, now: Millis, id: string, draft: AlertDraft, b: bool)
    requires ValidDraws(r)
    requires ScoreInRange(s)
    ensures ScoreInRange(Refresh(s, r, now)) && ScoreInRange(Tick(s, r, now))
    ensures ScoreInRange(AcknowledgeAlert(s, id)) && ScoreInRange(AddAlert(s, draft, idNow, now))
    ensures ScoreInRange(SetConnected(s, b))
  {
  }

  /** Alert and connection updates keep a consistent store consistent. */
  lemma OperationsPreserveConsistency(s: Store, r: seq<real>, idNow: Millis, now: Millis, id: string, draft: AlertDraft, b: bool)
    requires ValidDraws(r)
    requires Consistent(s)
    ensures Consistent(Tick(s, r, now))
    ensures Consistent(AcknowledgeAlert(s, id)) && Consistent(AddAlert(s, draft, idNow, now))
    ensures Consistent(SetConnected(s, b))
  {
  }

  /** The mounted state is connected and in range but never consistent: 87 is not a computed score. */
  lemma InitialNotConsistent(tankDraws: seq<real>, hookDraws: seq<real>, loadTime: Millis, mountTime: Millis)
    requires ValidDraws(tankDraws) && ValidDraws(hookDraws)
    ensures var s := Initial(tankDraws, hookDraws, loadTime, mountTime);
      s.isConnected && ScoreInRange(s) && !Consistent(s)
  {
    SeededScoreNeverComputed(GenerateSensorData(tankDraws));
  }
}
