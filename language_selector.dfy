/**
 * The language selector (`app/components/LanguageSelector.tsx`): one button per offered
 * language, disabled while it is the active language, and the click action that writes
 * the chosen language into the user settings and dispatches a copy to the store.
 */
module LanguageSelector {
  import opened Common
  import opened UserStore
  import AppBootstrap

  /** The languages the selector offers, in the order of its buttons. */
  const Offered: seq<string> := ["en", "de"]

  /** A rendered language button: its code, whether it is disabled, and the key its click passes on. */
  datatype Button = Button(code: string, disabled: bool, clickKey: string)

  /** `isActiveLanguage`: the button's code is the library's active language. */
  predicate IsActiveLanguage(code: string, activeLanguage: string)
  {
    code == activeLanguage
  }

  /** The `LanguageButton` for one code. */
  function LanguageButton(code: string, activeLanguage: string): (b: Button)
    ensures b.code == code && b.clickKey == code
    ensures b.disabled <==> code == activeLanguage
  {
    Button(code, IsActiveLanguage(code, activeLanguage), code)
  }

  /**
   * The list of buttons: exactly the offered languages in order, each passing its own
   * code to the click action and disabled exactly when its code is the active language.
   */
  function Buttons(activeLanguage: string): (r: seq<Button>)
    ensures |r| == |Offered|
    ensures forall i :: 0 <= i < |r| ==> r[i].code == Offered[i] && r[i].clickKey == Offered[i]
    ensures forall i :: 0 <= i < |r| ==> (r[i].disabled <==> Offered[i] == activeLanguage)
  {
    [LanguageButton("en", activeLanguage), LanguageButton("de", activeLanguage)]
  }

  /**
   * The active language is one value, so at most one button is disabled; exactly one is
   * when it is an offered language, and none otherwise.
   */
  lemma AtMostOneDisabled(activeLanguage: string)
    ensures forall i, j :: 0 <= i < j < |Buttons(activeLanguage)| ==>
      !(Buttons(activeLanguage)[i].disabled && Buttons(activeLanguage)[j].disabled)
    ensures (exists i :: 0 <= i < |Buttons(activeLanguage)| && Buttons(activeLanguage)[i].disabled)
      <==> activeLanguage in Offered
  {
    var r := Buttons(activeLanguage);
    assert r[0].code == "en" && r[1].code == "de";
    if activeLanguage in Offered {
      assert activeLanguage == r[0].code || activeLanguage == r[1].code;
    }
  }

  /** The settings value after a switch to `key`: `language` is `key`, every other field is kept. */
  function Switched(s: UserSettings, key: string): (r: UserSettings)
    ensures r.language == key && r.other == s.other
    ensures r == s <==> s.language == key
  {
    s.(language := key)
  }

  /**
   * The start-up language choice, applied to a settings value switched to a non-empty
   * key, picks that key over the browser's code. This is a fact about `InitLanguage`
   * on the switched value only: within one page load start-up has already run, and
   * across loads the value would have to be persisted by the store.
   */
  lemma SwitchedPreferenceIsInitLanguage(s: UserSettings, key: string, browserLanguage: string)
    requires key != ""
    ensures AppBootstrap.InitLanguage(Some(Switched(s, key)), browserLanguage) == key
  {
  }

  /**
   * `updateLanguageSetting(key)`: no settings, no change and no dispatch; otherwise the
   * store's settings object gets `language := key` in place, and a fresh shallow copy of
   * it is dispatched and becomes the store's settings.
   */
  method UpdateLanguageSetting(store: Store, key: string)
    modifies store, store.userSettings
    ensures old(store.userSettings) == null ==> unchanged(store)
    ensures old(store.userSettings) != null ==>
      && old(store.userSettings).Value() == Switched(old(store.userSettings.Value()), key)
      && fresh(store.userSettings)
      && store.Snapshot() == Some(Switched(old(store.userSettings.Value()), key))
      && store.dispatched == old(store.dispatched) + [Switched(old(store.userSettings.Value()), key)]
  {
    var userSettings := store.userSettings;
    if userSettings == null {
      return;
    }
    userSettings.language := key;
    var copy := new Settings.FromValue(userSettings.Value());
    store.UpdateUserSettings(copy);
  }
}
