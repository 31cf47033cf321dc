/**
 Domain types of the smart-IMTA tank dashboard: the nine-reading sensor
 snapshot, the tank status record with its alert list, the editable threshold
 rows, and the tank control settings with their feeding schedules.

 Every numeric field of the dashboard is a JavaScript number; readings and
 other measured quantities are modelled as `real`, timestamps as whole
 milliseconds (`Millis`).
 */
module Aquaculture {

  /** An optional field (`sensor?`, `value?`, `threshold?` of an alert). */
  datatype Option<+T> = None | Some(value: T)

  /** Milliseconds since the epoch, as `Date.now()` returns them. */
  type Millis = int

  /** The keys of a sensor snapshot (`keyof SensorData`), in declaration order. */
  datatype Sensor =
    | Temperature
    | Ph
    | DissolvedOxygen
    | Ammonia
    | Nitrite
    | Nitrate
    | Salinity
    | Turbidity
    | Tan

  /** The keys in the order `Object.keys` visits a snapshot. */
  const AllSensors: seq<Sensor> :=
    [Temperature, Ph, DissolvedOxygen, Ammonia, Nitrite, Nitrate, Salinity, Turbidity, Tan]

  predicate NoDuplicates<T(==)>(s: seq<T>) {
    forall i, j :: 0 <= i < j < |s| ==> s[i] != s[j]
  }

  /** `AllSensors` lists every key exactly once. */
  lemma AllSensorsEnumerates()
    ensures |AllSensors| == 9
    ensures NoDuplicates(AllSensors)
    ensures forall s: Sensor :: s in AllSensors
  {
    forall s: Sensor ensures s in AllSensors {
      assert AllSensors[IndexOf(s)] == s;
    }
  }

  /** The position of key `s` in `AllSensors`. */
  function IndexOf(s: Sensor): (i: nat)
    ensures i < |AllSensors| && AllSensors[i] == s
  {
    match s
    case Temperature => 0
    case Ph => 1
    case DissolvedOxygen => 2
    case Ammonia => 3
    case Nitrite => 4
    case Nitrate => 5
    case Salinity => 6
    case Turbidity => 7
    case Tan => 8
  }

  /** A tri-state health category of one reading. */
  datatype Status = Optimal | Warning | Critical

  /** One snapshot of the nine water-quality readings. */
  datatype SensorData = SensorData(
    temperature: real,
    ph: real,
    dissolvedOxygen: real,
    ammonia: real,
    nitrite: real,
    nitrate: real,
    salinity: real,
    turbidity: real,
    tan: real)
  {
    /** The reading stored under key `s` (`data[sensor]`). */
    function Get(s: Sensor): real {
      match s
      case Temperature => temperature
      case Ph => ph
      case DissolvedOxygen => dissolvedOxygen
      case Ammonia => ammonia
      case Nitrite => nitrite
      case Nitrate => nitrate
      case Salinity => salinity
      case Turbidity => turbidity
      case Tan => tan
    }
  }

  datatype AlertType = InfoAlert | WarningAlert | CriticalAlert

  /** An alert; `kind` is the source's `type` field. */
  datatype Alert = Alert(
    id: string,
    kind: AlertType,
    message: string,
    sensor: Option<string>,
    value: Option<real>,
    threshold: Option<real>,
    timestamp: Millis,
    acknowledged: bool)

  /** Identity, the current snapshot, livestock metrics, score and alerts of one tank. */
  datatype TankStatus = TankStatus(
    id: string,
    name: string,
    sensors: SensorData,
    shrimpCount: real,
    shrimpAvgWeight: real,
    shrimpAge: real,
    seaweedBiomass: real,
    lastUpdated: Millis,
    healthScore: int,
    alerts: seq<Alert>)

  datatype TidalPhase = High | Low | Rising | Falling

  /** A feeding slot; `feedType` is the source's `type` field. */
  datatype FeedingSchedule = FeedingSchedule(
    id: string,
    time: string,
    amount: real,
    feedType: string,
    enabled: bool)

  datatype ControlSettings = ControlSettings(
    aeratorEnabled: bool,
    aeratorSpeed: real,
    waveSimulation: bool,
    waveIntensity: real,
    feedingSchedule: seq<FeedingSchedule>,
    tidalSimulation: bool,
    tidalPhase: TidalPhase)

  /** One sample of the historical series. */
  datatype HistoricalData = HistoricalData(timestamp: Millis, sensors: SensorData, growthRate: real)

  /** An editable threshold row: critical bounds `min`/`max`, warning bounds inside them. */
  datatype ThresholdSettings = ThresholdSettings(
    sensor: Sensor,
    min: real,
    max: real,
    warningMin: real,
    warningMax: real,
    unit: string)
}
