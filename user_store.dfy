/**
 * The slice of the application store the localization logic touches:
 * `UserModel.userSettings` and its `updateUserSettings` action.
 * The store's own source is not part of this model; its action is taken to make
 * the dispatched object the new `userSettings`.
 */
module UserStore {
  import opened Common

  /** The value of a user settings record: its `language` and every other field. */
  datatype UserSettings = UserSettings(language: string, other: map<string, string>)

  /** The record `{ language: '' }`. */
  const EmptySettings: UserSettings := UserSettings("", map[])

  /** A user settings object; the language selector assigns its `language` in place. */
  class Settings {
    var language: string
    var other: map<string, string>

    function Value(): UserSettings
      reads this
    {
      UserSettings(language, other)
    }

    /** A fresh object holding `v` (a parsed record, or the spread copy `{ ...s }`). */
    constructor FromValue(v: UserSettings)
      ensures Value() == v
    {
      language := v.language;
      other := v.other;
    }
  }

  /** The store: the current settings object (possibly absent) and, as a ghost log, every dispatched record. */
  class Store {
    var userSettings: Settings?
    ghost var dispatched: seq<UserSettings>

    /** The settings value the store currently holds. */
    function Snapshot(): Option<UserSettings>
      reads this, userSettings
    {
      if userSettings == null then None else Some(userSettings.Value())
    }

    constructor (initial: Option<UserSettings>)
      ensures Snapshot() == initial
      ensures initial.Some? ==> fresh(userSettings)
      ensures dispatched == []
    {
      if initial.Some? {
        userSettings := new Settings.FromValue(initial.value);
      } else {
        userSettings := null;
      }
      dispatched := [];
    }

    /** `updateUserSettings(payload)`: the payload object becomes the store's settings. */
    method UpdateUserSettings(payload: Settings)
      modifies this
      ensures userSettings == payload
      ensures Snapshot() == Some(payload.Value())
      ensures dispatched == old(dispatched) + [payload.Value()]
    {
      userSettings := payload;
      dispatched := dispatched + [payload.Value()];
    }
  }
}
