/**
 State updates of the settings page: editing one bound of the threshold rows
 and switching notification channels. Edits stay in the page's own state;
 the classifier never reads them.
 */
module SettingsPage {
  import opened Aquaculture
  import opened MockData

  /** The four editable bounds of a row. */
  datatype ThresholdField = MinField | MaxField | WarningMinField | WarningMaxField

  function FieldValue(t: ThresholdSettings, f: ThresholdField): real {
    match f
    case MinField => t.min
    case MaxField => t.max
    case WarningMinField => t.warningMin
    case WarningMaxField => t.warningMax
  }

  /** `a` and `b` agree on sensor, unit and every bound except `f`. */
  predicate SameRowExcept(a: ThresholdSettings, b: ThresholdSettings, f: ThresholdField) {
    && a.sensor == b.sensor && a.unit == b.unit
    && forall g: ThresholdField :: g != f ==> FieldValue(a, g) == FieldValue(b, g)
  }

  function SetField(t: ThresholdSettings, f: ThresholdField, v: real): (r: ThresholdSettings)
    ensures FieldValue(r, f) == v
    ensures SameRowExcept(t, r, f)
  {
    match f
    case MinField => t.(min := v)
    case MaxField => t.(max := v)
    case WarningMinField => t.(warningMin := v)
    case WarningMaxField => t.(warningMax := v)
  }

  /** Writes `v` into bound `f` of every row for `sensor`, unvalidated. The page starts from `DefaultThresholds`. */
  function UpdateThreshold(rows: seq<ThresholdSettings>, sensor: Sensor, f: ThresholdField, v: real): (r: seq<ThresholdSettings>)
    ensures |r| == |rows|
    ensures forall i :: 0 <= i < |rows| && rows[i].sensor == sensor ==>
              FieldValue(r[i], f) == v && SameRowExcept(rows[i], r[i], f)
    ensures forall i :: 0 <= i < |rows| && rows[i].sensor != sensor ==> r[i] == rows[i]
    ensures forall i :: 0 <= i < |rows| ==> r[i].sensor == rows[i].sensor && r[i].unit == rows[i].unit
  {
    seq(|rows|, i requires 0 <= i < |rows| =>
      if rows[i].sensor == sensor then SetField(rows[i], f, v) else rows[i])
  }

  /** Rewriting the same bound keeps only the last value; writing the current value changes nothing. */
  lemma UpdateThresholdLastWriteWins(rows: seq<ThresholdSettings>, sensor: Sensor, f: ThresholdField, v: real, w: real)
    ensures UpdateThreshold(UpdateThreshold(rows, sensor, f, v), sensor, f, w) == UpdateThreshold(rows, sensor, f, w)
    ensures (forall i :: 0 <= i < |rows| && rows[i].sensor == sensor ==> FieldValue(rows[i], f) == v) ==>
              UpdateThreshold(rows, sensor, f, v) == rows
  {
  }

  /** Edits are not validated: one edit can leave a default row with its bounds out of order. */
  lemma UpdateThresholdCanBreakOrdering()
    ensures BoundsOrdered(DefaultThresholds[0])
    ensures var r := UpdateThreshold(DefaultThresholds, Temperature, MinField, 40.0);
      r[0].sensor == Temperature && !BoundsOrdered(r[0])
  {
    var r := UpdateThreshold(DefaultThresholds, Temperature, MinField, 40.0);
    assert FieldValue(r[0], MinField) == 40.0;
    assert FieldValue(r[0], WarningMinField) == 26.0;
  }

  datatype Notifications = Notifications(
    email: bool,
    push: bool,
    sms: bool,
    critical: bool,
    warnings: bool,
    info: bool)

  /** The six switches of the notifications tab. */
  datatype NotificationFlag = Email | Push | Sms | CriticalFlag | WarningsFlag | InfoFlag

  function Flag(n: Notifications, f: NotificationFlag): bool {
    match f
    case Email => n.email
    case Push => n.push
    case Sms => n.sms
    case CriticalFlag => n.critical
    case WarningsFlag => n.warnings
    case InfoFlag => n.info
  }

  /** Email, push, critical and warnings on; sms and info off. */
  const InitialNotifications: Notifications := Notifications(true, true, false, true, true, false)

  lemma InitialNotificationFlags()
    ensures forall f :: Flag(InitialNotifications, f) <==> f !in {Sms, InfoFlag}
  {
  }

  /** One switch: `{ ...prev, [flag]: checked }`. */
  function SetNotification(n: Notifications, f: NotificationFlag, checked: bool): (r: Notifications)
    ensures Flag(r, f) == checked
    ensures forall g :: g != f ==> Flag(r, g) == Flag(n, g)
  {
    match f
    case Email => n.(email := checked)
    case Push => n.(push := checked)
    case Sms => n.(sms := checked)
    case CriticalFlag => n.(critical := checked)
    case WarningsFlag => n.(warnings := checked)
    case InfoFlag => n.(info := checked)
  }

  /** The flags determine the record, so a switch set back to its old value restores it. */
  lemma SetNotificationRestores(n: Notifications, f: NotificationFlag, checked: bool)
    ensures SetNotification(SetNotification(n, f, checked), f, Flag(n, f)) == n
  {
  }
}
