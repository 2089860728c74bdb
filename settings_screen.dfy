/**
 * The settings form (src/components/SettingsScreen.tsx): where the six
 * settings start from, how one of them is changed, when they are acceptable,
 * and what the start button hands on.
 */
module SettingsScreen {
  import opened Wrappers
  import opened TimerTypes
  import NumberInput

  /** Names of the six settings, in the order the record declares them. */
  datatype SettingKey = PreparationKey | WorkKey | RestKey | CyclesKey | SetRestKey | SetsKey

  const MinSetting: int := 1
  const MaxSetting: int := 999

  /** The settings used when nothing usable was saved. */
  const DefaultSettings: Settings := Settings(15, 30, 10, 5, 120, 3)

  /** What reading the saved settings produced: nothing saved, a read or parse failure, or a record. */
  datatype SavedSettings = NothingSaved | LoadFailed | Saved(settings: Settings)

  /** The form's initial settings: a saved record as it was read, otherwise the defaults. */
  function InitialSettings(saved: SavedSettings): Settings {
    match saved
    case Saved(s) => s
    case _ => DefaultSettings
  }

  function Get(s: Settings, k: SettingKey): int {
    match k
    case PreparationKey => s.preparation
    case WorkKey => s.work
    case RestKey => s.rest
    case CyclesKey => s.cycles
    case SetRestKey => s.setRest
    case SetsKey => s.sets
  }

  /** The record's values in declaration order, as the validity check walks them. */
  function Values(s: Settings): seq<int> {
    [s.preparation, s.work, s.rest, s.cycles, s.setRest, s.sets]
  }

  /** Every value of the record lies in [1, 999]. */
  predicate IsValid(s: Settings) {
    forall i :: 0 <= i < |Values(s)| ==> MinSetting <= Values(s)[i] <= MaxSetting
  }

  /** Replace the value of one setting. */
  function UpdateSetting(s: Settings, k: SettingKey, v: int): Settings {
    match k
    case PreparationKey => s.(preparation := v)
    case WorkKey => s.(work := v)
    case RestKey => s.(rest := v)
    case CyclesKey => s.(cycles := v)
    case SetRestKey => s.(setRest := v)
    case SetsKey => s.(sets := v)
  }

  /** The start button: greyed out unless the settings are valid, and then hands them on as they are. */
  function HandleStart(s: Settings): Option<Settings> {
    if IsValid(s) then Some(s) else None
  }

  /** The settings are valid exactly when each of the six, looked up by name, lies in [1, 999]. */
  lemma IsValidIffEveryField(s: Settings)
    ensures IsValid(s) <==> forall k: SettingKey :: MinSetting <= Get(s, k) <= MaxSetting
  {
    var keys := [PreparationKey, WorkKey, RestKey, CyclesKey, SetRestKey, SetsKey];
    assert forall i :: 0 <= i < 6 ==> Values(s)[i] == Get(s, keys[i]);
    if IsValid(s) {
      forall k: SettingKey ensures MinSetting <= Get(s, k) <= MaxSetting {
        var i := match k
          case PreparationKey => 0 case WorkKey => 1 case RestKey => 2
          case CyclesKey => 3 case SetRestKey => 4 case SetsKey => 5;
        assert Values(s)[i] == Get(s, k);
      }
    }
  }

  /** Updating a setting gives it the new value and leaves the other five as they were. */
  lemma UpdateSettingGet(s: Settings, k: SettingKey, v: int, other: SettingKey)
    ensures Get(UpdateSetting(s, k, v), k) == v
    ensures other != k ==> Get(UpdateSetting(s, k, v), other) == Get(s, other)
  {
  }

  /** Updating one setting of a valid record with an in-range value keeps it valid. */
  lemma UpdateSettingKeepsValid(s: Settings, k: SettingKey, v: int)
    requires IsValid(s) && MinSetting <= v <= MaxSetting
    ensures IsValid(UpdateSetting(s, k, v))
  {
    IsValidIffEveryField(s);
    IsValidIffEveryField(UpdateSetting(s, k, v));
    forall other: SettingKey ensures MinSetting <= Get(UpdateSetting(s, k, v), other) <= MaxSetting {
      UpdateSettingGet(s, k, v, other);
    }
  }

  /**
   * A valid form stays valid whatever its steppers do: any value that a field's
   * stepper, with its default bounds, hands to `UpdateSetting` keeps the record valid.
   */
  lemma SteppersKeepSettingsValid(s: Settings, k: SettingKey, text: string, emitted: Option<int>)
    requires IsValid(s)
    requires emitted == NumberInput.Increment(Get(s, k), NumberInput.DefaultMax)
          || emitted == NumberInput.Decrement(Get(s, k), NumberInput.DefaultMin)
          || emitted == NumberInput.HandleChange(text, NumberInput.DefaultMin, NumberInput.DefaultMax)
    ensures emitted.Some? ==> IsValid(UpdateSetting(s, k, emitted.value))
  {
    IsValidIffEveryField(s);
    NumberInput.HandlersStayInBounds(Get(s, k), text, NumberInput.DefaultMin, NumberInput.DefaultMax, emitted);
    if emitted.Some? {
      UpdateSettingKeepsValid(s, k, emitted.value);
    }
  }

  /** Without a usable saved record the form starts from the defaults, which are valid. */
  lemma InitialSettingsDefaults(saved: SavedSettings)
    ensures !saved.Saved? ==> InitialSettings(saved) == DefaultSettings && IsValid(InitialSettings(saved))
    ensures saved.Saved? ==> InitialSettings(saved) == saved.settings
  {
  }

  /** The start button hands on the form's settings unchanged, and only valid ones. */
  lemma HandleStartPassesValid(s: Settings)
    ensures HandleStart(s).Some? <==> IsValid(s)
    ensures HandleStart(s).Some? ==> HandleStart(s).value == s
  {
  }
}
