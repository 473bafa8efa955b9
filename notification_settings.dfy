/**
 * The notification settings screen (app/notification-settings.tsx): eight
 * switches, "Toggle All", "Enable Critical" and the daily notification time.
 */
module NotificationSettings {
  import opened Lists
  import opened Switches

  /** The keys of the `settings` record. */
  datatype Setting =
    | WeatherAlerts | PlantingReminders | HarvestReminders | MarketPrices
    | PestAlerts | DroughtWarnings | ExtensionUpdates | DailyTips

  /** `Object.keys(settings)`, in declaration order. */
  const AllSettings: seq<Setting> := [
    WeatherAlerts, PlantingReminders, HarvestReminders, MarketPrices,
    PestAlerts, DroughtWarnings, ExtensionUpdates, DailyTips
  ]

  /** The record always holds every key. */
  predicate Complete(m: map<Setting, bool>) {
    forall k: Setting :: k in m
  }

  lemma EveryKeyListed(k: Setting)
    ensures k in AllSettings
  {
    match k
    case WeatherAlerts => assert AllSettings[0] == k;
    case PlantingReminders => assert AllSettings[1] == k;
    case HarvestReminders => assert AllSettings[2] == k;
    case MarketPrices => assert AllSettings[3] == k;
    case PestAlerts => assert AllSettings[4] == k;
    case DroughtWarnings => assert AllSettings[5] == k;
    case ExtensionUpdates => assert AllSettings[6] == k;
    case DailyTips => assert AllSettings[7] == k;
  }

  const InitialSettings: map<Setting, bool> := map[
    WeatherAlerts := true, PlantingReminders := true, HarvestReminders := true,
    MarketPrices := false, PestAlerts := true, DroughtWarnings := true,
    ExtensionUpdates := false, DailyTips := true
  ]

  /** One row of `notificationTypes`, with only the fields the buttons read (title, description and icon are display text). */
  datatype NotificationType = NotificationType(key: Setting, critical: bool)

  const NotificationTypes: seq<NotificationType> := [
    NotificationType(WeatherAlerts, true),
    NotificationType(PlantingReminders, false),
    NotificationType(HarvestReminders, false),
    NotificationType(MarketPrices, false),
    NotificationType(PestAlerts, true),
    NotificationType(DroughtWarnings, true),
    NotificationType(ExtensionUpdates, false),
    NotificationType(DailyTips, false)
  ]

  const TimeOptions: seq<string> := [
    "06:00", "07:00", "08:00", "09:00", "10:00", "17:00", "18:00", "19:00", "20:00"
  ]

  function KeysOf(types: seq<NotificationType>): (keys: seq<Setting>)
    ensures |keys| == |types|
    ensures forall i :: 0 <= i < |types| ==> keys[i] == types[i].key
  {
    seq(|types|, i requires 0 <= i < |types| => types[i].key)
  }

  /** `notificationTypes.filter(n => n.critical).map(n => n.key)`. */
  function CriticalKeys(types: seq<NotificationType>): (keys: seq<Setting>)
    ensures |keys| <= |types|
    ensures (forall i :: 0 <= i < |types| ==> !types[i].critical) ==> keys == []
  {
    var critical := (n: NotificationType) => n.critical;
    if forall i :: 0 <= i < |types| ==> !types[i].critical then
      FilterKeepsNone(types, critical);
      KeysOf(Filter(types, critical))
    else
      KeysOf(Filter(types, critical))
  }

  /** The entries marked critical are the weather, pest and drought alerts. */
  lemma CriticalAlerts()
    ensures CriticalKeys(NotificationTypes) == [WeatherAlerts, PestAlerts, DroughtWarnings]
  {
    var t := NotificationTypes;
    var p := (n: NotificationType) => n.critical;
    assert t[7..] == [t[7]] && t[8..] == [];
    assert Filter(t[7..], p) == [];
    assert Filter(t[6..], p) == [];
    assert Filter(t[5..], p) == [t[5]];
    assert Filter(t[4..], p) == [t[4], t[5]];
    assert Filter(t[3..], p) == [t[4], t[5]];
    assert Filter(t[2..], p) == [t[4], t[5]];
    assert Filter(t[1..], p) == [t[4], t[5]];
    assert Filter(t, p) == [t[0], t[4], t[5]];
  }

  /** "Toggle All": every switch off when all were on, otherwise every switch on. */
  function ToggleAll(m: map<Setting, bool>): (r: map<Setting, bool>)
    ensures Complete(r)
    ensures AllOn(m) ==> forall k :: k in r ==> !r[k]
    ensures !AllOn(m) ==> forall k :: k in r ==> r[k]
  {
    var r := SetAll(AllSettings, !AllOn(m));
    forall k: Setting ensures k in r {
      EveryKeyListed(k);
      var i :| 0 <= i < |AllSettings| && AllSettings[i] == k;
    }
    r
  }

  /** Pressing "Toggle All" twice on a record with every switch on restores it. */
  lemma ToggleAllTwiceFromAllOn(m: map<Setting, bool>)
    requires Complete(m) && AllOn(m)
    ensures ToggleAll(ToggleAll(m)) == m
  {
    var once := ToggleAll(m);
    assert !AllOn(once) by {
      assert WeatherAlerts in once && !once[WeatherAlerts];
    }
  }

  /** From a mixed record, "Toggle All" switches everything on, then everything off. */
  lemma ToggleAllTwiceFromMixed(m: map<Setting, bool>)
    requires !AllOn(m)
    ensures AllOn(ToggleAll(m))
    ensures forall k :: k in ToggleAll(ToggleAll(m)) ==> !ToggleAll(ToggleAll(m))[k]
  {
  }

  /** "Enable Critical" on values. */
  function WithCritical(m: map<Setting, bool>): (r: map<Setting, bool>)
    ensures forall k :: k in m ==> k in r
    ensures WeatherAlerts in r && PestAlerts in r && DroughtWarnings in r
    ensures r[WeatherAlerts] && r[PestAlerts] && r[DroughtWarnings]
    ensures forall k :: k in m && k != WeatherAlerts && k != PestAlerts && k != DroughtWarnings ==> r[k] == m[k]
  {
    var keys := CriticalKeys(NotificationTypes);
    assert |keys| == 3 && keys[0] == WeatherAlerts && keys[1] == PestAlerts && keys[2] == DroughtWarnings by {
      CriticalAlerts();
    }
    assert forall k :: k in keys ==> k == keys[0] || k == keys[1] || k == keys[2];
    Enable(m, keys)
  }

  /** It switches the three critical alerts on and leaves every other switch alone. */
  lemma WithCriticalSpec(m: map<Setting, bool>)
    requires Complete(m)
    ensures Complete(WithCritical(m))
    ensures WithCritical(m)[WeatherAlerts] && WithCritical(m)[PestAlerts] && WithCritical(m)[DroughtWarnings]
    ensures forall k :: k != WeatherAlerts && k != PestAlerts && k != DroughtWarnings ==>
                        WithCritical(m)[k] == m[k]
  {
  }

  /** Pressing "Enable Critical" a second time changes nothing. */
  lemma WithCriticalIdempotent(m: map<Setting, bool>)
    ensures WithCritical(WithCritical(m)) == WithCritical(m)
  {
    EnableIdempotent(m, CriticalKeys(NotificationTypes));
  }

  /** The screen's state: the switches and the chosen time. */
  class NotificationScreen {
    var settings: map<Setting, bool>
    var notificationTime: string

    ghost predicate Valid()
      reads this
    {
      Complete(settings) && notificationTime in TimeOptions
    }

    constructor ()
      ensures Valid()
      ensures settings == InitialSettings && notificationTime == "08:00"
    {
      forall k: Setting ensures k in InitialSettings {
        match k
        case WeatherAlerts =>
        case PlantingReminders =>
        case HarvestReminders =>
        case MarketPrices =>
        case PestAlerts =>
        case DroughtWarnings =>
        case ExtensionUpdates =>
        case DailyTips =>
      }
      settings := InitialSettings;
      notificationTime := "08:00";
    }

    /** `toggleSetting`. */
    method ToggleSetting(key: Setting)
      requires Valid()
      modifies this
      ensures Valid()
      ensures settings == Toggle(old(settings), key)
      ensures notificationTime == old(notificationTime)
    {
      settings := settings[key := !settings[key]];
    }

    /** The "Toggle All" button. */
    method ToggleAllSettings()
      requires Valid()
      modifies this
      ensures Valid()
      ensures settings == ToggleAll(old(settings))
      ensures notificationTime == old(notificationTime)
    {
      settings := ToggleAll(settings);
    }

    /** The "Enable Critical" button. */
    method EnableCritical()
      requires Valid()
      modifies this
      ensures Valid()
      ensures settings == WithCritical(old(settings))
      ensures notificationTime == old(notificationTime)
    {
      SwitchOn(CriticalKeys(NotificationTypes));
    }

    /** A copy of the switches with `keys` set on one by one, then stored. */
    method SwitchOn(keys: seq<Setting>)
      requires Valid()
      modifies this
      ensures Valid()
      ensures settings == Enable(old(settings), keys)
      ensures notificationTime == old(notificationTime)
    {
      var newSettings := settings;
      var i := 0;
      while i < |keys|
        invariant 0 <= i <= |keys|
        invariant newSettings == Enable(settings, keys[..i])
      {
        assert keys[..i + 1][..i] == keys[..i];
        newSettings := newSettings[keys[i] := true];
        i := i + 1;
      }
      assert keys[..i] == keys;
      settings := newSettings;
    }

    /** Tapping one of the time options. */
    method SelectTime(time: string)
      requires Valid() && time in TimeOptions
      modifies this
      ensures Valid()
      ensures notificationTime == time
      ensures settings == old(settings)
    {
      notificationTime := time;
    }
  }
}
