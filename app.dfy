/**
 * The application entry point (`app/pages/_app.tsx`): the mount effect that seeds the
 * store from durable storage, picks the initial language and initializes the
 * translation library, and the render gate on the stored library instance.
 *
 * Durable storage, `JSON.parse` and the browser's short language code are inputs
 * (an `Environment`); the promise returned by `initialize` is taken to resolve
 * before the effect's continuation runs.
 */
module AppBootstrap {
  import opened Common
  import opened UserStore
  import LocalizationHelper

  /** What `JSON.parse` makes of a stored string: it throws, or yields a falsy value, or a record. */
  datatype Parsed = Throws | FalsyValue | Record(settings: UserSettings)

  /**
   * What `localStorage.getItem('userSettings')` does: it throws (storage blocked),
   * or returns the stored string or `null`.
   */
  datatype StorageRead = Blocked | Item(value: Option<string>)

  /**
   * The environment of one mount: whether `window` is defined, what reading the
   * `userSettings` item of durable storage does, `JSON.parse`, and the browser's
   * short language code.
   */
  datatype Environment = Environment(
    hasWindow: bool,
    storage: StorageRead,
    parse: string -> Parsed,
    browserLanguage: string)

  /** What the effect does to the store before choosing a language: keep it, seed it, or throw. */
  datatype SeedAction = Keep | Seed(settings: UserSettings) | Abort

  /** `window` exists and storage yields a non-empty string. */
  predicate HasStoredString(env: Environment)
  {
    env.hasWindow && env.storage.Item? && TruthyKey(env.storage.value)
  }

  /**
   * The store is seeded only when `window` exists and a non-empty string is stored:
   * with the parsed record when it is truthy, with `{ language: '' }` when it is falsy.
   * A storage read that throws, or a string `JSON.parse` rejects, throws out of the effect.
   */
  function SeedActionOf(env: Environment): (a: SeedAction)
    ensures a.Keep? <==> !env.hasWindow || (env.storage.Item? && !TruthyKey(env.storage.value))
    ensures a.Abort? <==>
      env.hasWindow && (env.storage.Blocked? || (HasStoredString(env) && env.parse(env.storage.value.value).Throws?))
    ensures HasStoredString(env) && env.parse(env.storage.value.value).Record? ==>
      a == Seed(env.parse(env.storage.value.value).settings)
    ensures HasStoredString(env) && env.parse(env.storage.value.value).FalsyValue? ==>
      a == Seed(EmptySettings)
  {
    if !env.hasWindow then Keep
    else
      match env.storage
      case Blocked => Abort
      case Item(stored) =>
        if TruthyKey(stored) then
          match env.parse(stored.value)
          case Throws => Abort
          case FalsyValue => Seed(EmptySettings)
          case Record(v) => Seed(v)
        else
          Keep
  }

  /** The store's settings after the seeding step (an aborted effect seeds nothing). */
  function Seeded(before: Option<UserSettings>, a: SeedAction): (r: Option<UserSettings>)
    ensures a.Seed? ==> r == Some(a.settings)
    ensures !a.Seed? ==> r == before
  {
    if a.Seed? then Some(a.settings) else before
  }

  /**
   * `initLanguage`: the store's language when it is set and non-empty, otherwise the
   * browser's short code. Neither is checked against the offered languages.
   */
  function InitLanguage(settings: Option<UserSettings>, browserLanguage: string): (r: string)
    ensures settings.Some? && Truthy(settings.value.language) ==> r == settings.value.language
    ensures settings.None? || !Truthy(settings.value.language) ==> r == browserLanguage
  {
    if settings.Some? && Truthy(settings.value.language) then settings.value.language else browserLanguage
  }

  /** What the application renders. */
  datatype View = HeadOnly | FullTree(i18n: Handle)

  /** The render gate: the provider tree with the page only once an instance exists, otherwise only the head. */
  function Render(i18nInstance: Option<Handle>): (v: View)
    ensures v.FullTree? <==> i18nInstance.Some?
    ensures v.FullTree? ==> v.i18n == i18nInstance.value
  {
    if i18nInstance.Some? then FullTree(i18nInstance.value) else HeadOnly
  }

  /** The outcome of one run of the mount effect on values. */
  datatype BootResult =
    | Aborted
    | Booted(settings: Option<UserSettings>, helper: LocalizationHelper.HelperState, instance: Handle)

  /**
   * One run of the mount effect: seed the store, read the initial language from the
   * seeded store, call `initialize` with it, and hand the instance to the render state.
   */
  function Boot(settings: Option<UserSettings>, helper: LocalizationHelper.HelperState, env: Environment, lib: Handle): (r: BootResult)
    ensures r.Aborted? <==> SeedActionOf(env).Abort?
    ensures r.Booted? ==> r.helper.instance == Some(r.instance)
    ensures r.Booted? && LocalizationHelper.ValidState(helper) ==> LocalizationHelper.ValidState(r.helper)
  {
    var a := SeedActionOf(env);
    if a.Abort? then Aborted
    else
      var seeded := Seeded(settings, a);
      var init := LocalizationHelper.Step(helper, Some(InitLanguage(seeded, env.browserLanguage)), lib);
      Booted(seeded, init.0, init.1)
  }

  /** A stored non-empty language preference is what the library is initialized with, and what the document shows. */
  lemma StoredPreferenceWins(settings: Option<UserSettings>, documentLang: string, env: Environment, lib: Handle)
    requires SeedActionOf(env).Seed? && Truthy(SeedActionOf(env).settings.language)
    ensures var r := Boot(settings, LocalizationHelper.Initial(documentLang), env, lib);
      && r.Booted?
      && r.settings == Some(SeedActionOf(env).settings)
      && r.helper.lng == SeedActionOf(env).settings.language
      && r.helper.docLang == SeedActionOf(env).settings.language
      && r.helper.libraryInits == [LocalizationHelper.InitOptions(SeedActionOf(env).settings.language, DefaultLanguage)]
  {
  }

  /**
   * With nothing usable stored and no language in the store, the browser's code decides;
   * an empty browser code leaves the default `'en'`.
   */
  lemma BrowserLanguageWithoutPreference(settings: Option<UserSettings>, documentLang: string, env: Environment, lib: Handle)
    requires !SeedActionOf(env).Abort?
    requires Seeded(settings, SeedActionOf(env)).None? || Seeded(settings, SeedActionOf(env)).value.language == ""
    ensures var r := Boot(settings, LocalizationHelper.Initial(documentLang), env, lib);
      && r.Booted?
      && r.helper.lng == (if Truthy(env.browserLanguage) then env.browserLanguage else DefaultLanguage)
      && r.helper.docLang == r.helper.lng
  {
  }

  /** Running the effect again (a remount) finds the instance stored and keeps the library state and instance. */
  lemma RemountKeepsInstance(settings: Option<UserSettings>, documentLang: string, env1: Environment, lib1: Handle, env2: Environment, lib2: Handle)
    requires !SeedActionOf(env1).Abort? && !SeedActionOf(env2).Abort?
    ensures var r1 := Boot(settings, LocalizationHelper.Initial(documentLang), env1, lib1);
      var r2 := Boot(r1.settings, r1.helper, env2, lib2);
      && r2.Booted? && r2.helper == r1.helper && r2.instance == r1.instance == lib1
  {
  }

  /** The render state of the `App` component: `i18nInstance`. */
  class App {
    var i18nInstance: Option<Handle>

    constructor ()
      ensures i18nInstance.None?
      ensures View() == HeadOnly
    {
      i18nInstance := None;
    }

    /** What the component renders in its current state. */
    function View(): View
      reads this
    {
      Render(i18nInstance)
    }

    /**
     * The mount effect. Effects run only in the browser, so `env.hasWindow` always
     * holds here; for `!env.hasWindow` the model still lets the document write succeed.
     * Returns false when reading storage or `JSON.parse` throws: the
     * effect throws and leaves the store, the library state and `i18nInstance` unchanged.
     */
    method MountEffect(store: Store, helper: LocalizationHelper.Localizer, env: Environment, lib: Handle) returns (completed: bool)
      requires helper.Valid()
      modifies this, store, helper
      ensures helper.Valid()
      ensures completed <==> !SeedActionOf(env).Abort?
      ensures !completed ==> unchanged(this, store, helper)
      ensures completed ==>
        var r := Boot(old(store.Snapshot()), old(helper.State()), env, lib);
        && r.Booted?
        && store.Snapshot() == r.settings
        && helper.State() == r.helper
        && i18nInstance == Some(r.instance)
        && View() == FullTree(r.instance)
      ensures SeedActionOf(env).Seed? ==>
        fresh(store.userSettings) && store.dispatched == old(store.dispatched) + [SeedActionOf(env).settings]
      ensures SeedActionOf(env).Keep? ==> store.userSettings == old(store.userSettings) && store.dispatched == old(store.dispatched)
    {
      if env.hasWindow {
        if env.storage.Blocked? {
          return false;
        }
        var storedString := env.storage.value;
        if TruthyKey(storedString) {
          var parsed := env.parse(storedString.value);
          if parsed.Throws? {
            return false;
          }
          var payload := new Settings.FromValue(if parsed.Record? then parsed.settings else EmptySettings);
          store.UpdateUserSettings(payload);
        }
      }
      var seeded := store.Snapshot();
      var initLanguage := InitLanguage(seeded, env.browserLanguage);
      var i := helper.Initialize(Some(initLanguage), lib);
      i18nInstance := Some(i);
      completed := true;
    }
  }
}
