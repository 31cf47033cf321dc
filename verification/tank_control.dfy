/**
 State updates of the tank control page: the keyed settings update, the
 feeding-schedule switch and the tidal phase buttons.
 */
module TankControl {
  import opened Aquaculture
  import opened MockData

  /** The keys of `ControlSettings`. */
  datatype SettingKey =
    | AeratorEnabledKey
    | AeratorSpeedKey
    | WaveSimulationKey
    | WaveIntensityKey
    | FeedingScheduleKey
    | TidalSimulationKey
    | TidalPhaseKey

  /** The arguments of `updateSetting(key, value)`: a key and a value of that key's type. */
  datatype SettingUpdate =
    | AeratorEnabled(on: bool)
    | AeratorSpeed(speed: real)
    | WaveSimulation(on: bool)
    | WaveIntensity(intensity: real)
    | Schedule(schedule: seq<FeedingSchedule>)
    | TidalSimulation(on: bool)
    | Phase(phase: TidalPhase)
  {
    function Key(): SettingKey {
      match this
      case AeratorEnabled(_) => AeratorEnabledKey
      case AeratorSpeed(_) => AeratorSpeedKey
      case WaveSimulation(_) => WaveSimulationKey
      case WaveIntensity(_) => WaveIntensityKey
      case Schedule(_) => FeedingScheduleKey
      case TidalSimulation(_) => TidalSimulationKey
      case Phase(_) => TidalPhaseKey
    }
  }

  /** `c` holds the value that `u` carries under `u`'s key. */
  predicate Holds(c: ControlSettings, u: SettingUpdate) {
    match u
    case AeratorEnabled(b) => c.aeratorEnabled == b
    case AeratorSpeed(x) => c.aeratorSpeed == x
    case WaveSimulation(b) => c.waveSimulation == b
    case WaveIntensity(x) => c.waveIntensity == x
    case Schedule(s) => c.feedingSchedule == s
    case TidalSimulation(b) => c.tidalSimulation == b
    case Phase(p) => c.tidalPhase == p
  }

  /** `a` and `b` agree on every key except possibly `k`. */
  predicate SameExcept(a: ControlSettings, b: ControlSettings, k: SettingKey) {
    && (k != AeratorEnabledKey ==> a.aeratorEnabled == b.aeratorEnabled)
    && (k != AeratorSpeedKey ==> a.aeratorSpeed == b.aeratorSpeed)
    && (k != WaveSimulationKey ==> a.waveSimulation == b.waveSimulation)
    && (k != WaveIntensityKey ==> a.waveIntensity == b.waveIntensity)
    && (k != FeedingScheduleKey ==> a.feedingSchedule == b.feedingSchedule)
    && (k != TidalSimulationKey ==> a.tidalSimulation == b.tidalSimulation)
    && (k != TidalPhaseKey ==> a.tidalPhase == b.tidalPhase)
  }

  /** `{ ...prev, [key]: value }`: the key takes the value, nothing else changes. */
  function UpdateSetting(c: ControlSettings, u: SettingUpdate): (r: ControlSettings)
    ensures Holds(r, u)
    ensures SameExcept(c, r, u.Key())
  {
    match u
    case AeratorEnabled(b) => c.(aeratorEnabled := b)
    case AeratorSpeed(x) => c.(aeratorSpeed := x)
    case WaveSimulation(b) => c.(waveSimulation := b)
    case WaveIntensity(x) => c.(waveIntensity := x)
    case Schedule(s) => c.(feedingSchedule := s)
    case TidalSimulation(b) => c.(tidalSimulation := b)
    case Phase(p) => c.(tidalPhase := p)
  }

  /** The last write to a key wins; writes to different keys commute. */
  lemma UpdateSettingAlgebra(c: ControlSettings, u: SettingUpdate, v: SettingUpdate)
    ensures u.Key() == v.Key() ==> UpdateSetting(UpdateSetting(c, u), v) == UpdateSetting(c, v)
    ensures u.Key() != v.Key() ==> UpdateSetting(UpdateSetting(c, u), v) == UpdateSetting(UpdateSetting(c, v), u)
    ensures Holds(c, u) ==> UpdateSetting(c, u) == c
  {
  }

  /** Flips `enabled` on every schedule carrying `id`. */
  function ToggleFeedingSchedule(c: ControlSettings, id: string): (r: ControlSettings)
    ensures |r.feedingSchedule| == |c.feedingSchedule|
    ensures forall i :: 0 <= i < |c.feedingSchedule| && c.feedingSchedule[i].id == id ==>
              r.feedingSchedule[i] == c.feedingSchedule[i].(enabled := !c.feedingSchedule[i].enabled)
    ensures forall i :: 0 <= i < |c.feedingSchedule| && c.feedingSchedule[i].id != id ==>
              r.feedingSchedule[i] == c.feedingSchedule[i]
    ensures SameExcept(c, r, FeedingScheduleKey)
  {
    var fs := c.feedingSchedule;
    c.(feedingSchedule := seq(|fs|, i requires 0 <= i < |fs| =>
      if fs[i].id == id then fs[i].(enabled := !fs[i].enabled) else fs[i]))
  }

  /** Toggling the same id twice restores the settings. */
  lemma ToggleFeedingScheduleInvolution(c: ControlSettings, id: string)
    ensures ToggleFeedingSchedule(ToggleFeedingSchedule(c, id), id) == c
  {
    var r := ToggleFeedingSchedule(ToggleFeedingSchedule(c, id), id);
    assert r.feedingSchedule == c.feedingSchedule;
  }

  /** Toggling an id no schedule carries changes nothing. */
  lemma ToggleUnknownScheduleIsNoop(c: ControlSettings, id: string)
    requires forall i :: 0 <= i < |c.feedingSchedule| ==> c.feedingSchedule[i].id != id
    ensures ToggleFeedingSchedule(c, id) == c
  {
    assert ToggleFeedingSchedule(c, id).feedingSchedule == c.feedingSchedule;
  }

  /** The tidal phase buttons, in display order. */
  const TidalPhaseButtons: seq<TidalPhase> := [Low, Rising, High, Falling]

  /** Pressing button `i` sets the phase it shows. */
  function SelectTidalPhase(c: ControlSettings, i: nat): (r: ControlSettings)
    requires i < |TidalPhaseButtons|
    ensures r.tidalPhase in TidalPhaseButtons
    ensures r.tidalPhase == TidalPhaseButtons[i]
    ensures SameExcept(c, r, TidalPhaseKey)
  {
    UpdateSetting(c, Phase(TidalPhaseButtons[i]))
  }

  /** Every phase has exactly one button. */
  lemma TidalPhaseButtonsCoverPhases()
    ensures NoDuplicates(TidalPhaseButtons)
    ensures forall p: TidalPhase :: p in TidalPhaseButtons
  {
    forall p: TidalPhase ensures p in TidalPhaseButtons {
      match p
      case Low => assert TidalPhaseButtons[0] == p;
      case Rising => assert TidalPhaseButtons[1] == p;
      case High => assert TidalPhaseButtons[2] == p;
      case Falling => assert TidalPhaseButtons[3] == p;
    }
  }

  /** The page starts from the seeded settings: four schedules, the night feed off. */
  lemma InitialControlSettings()
    ensures |MockControlSettings.feedingSchedule| == 4
    ensures forall i :: 0 <= i < 4 ==> (MockControlSettings.feedingSchedule[i].enabled <==> i < 3)
    ensures MockControlSettings.tidalPhase == Rising
  {
  }
}
