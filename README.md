# Localization start-up and language choice

A model of the localization logic of a Next.js personal web site: the once-guarded
initializer of the translation library (`initialize` in `app/helper/LocalizationHelper.ts`),
the application's mount effect that seeds the user store from durable storage and picks
the initial language, the render gate that waits for the library instance
(`app/pages/_app.tsx`), and the language selector's buttons and switch action
(`app/components/LanguageSelector.tsx`).

Files:

- `common.dfy` — `Option`, the library `Handle`, the default language `'en'` and JavaScript string truthiness.
- `localization_helper.dfy` — the module state (`instance`, `lng`, `fallbackLng`, the document's `lang`)
  as a value `HelperState` with the specification function `Step`, a run of many calls `Run` and its
  lemmas, and the class `Localizer` whose `Initialize` updates the same state in place.
- `user_store.dfy` — the user settings object and the store's `userSettings` / `updateUserSettings`.
- `app.dfy` — the mount effect (`App.MountEffect`), the pure choices it makes and the render gate.
- `language_selector.dfy` — the two language buttons and `UpdateLanguageSetting`.

Behaviour of the code worth noting:

- No language is checked against a supported set: a stored or browser code that is not `'en'` or
  `'de'` is passed to `initialize` unchanged (`app/pages/_app.tsx:38`).
- When nothing is stored, the store is left as it was; it is not seeded with `{ language: '' }`.
  That record is used only when a non-empty stored string parses to a falsy value (`app/pages/_app.tsx:32-34`).
- A storage read that throws, or a stored string that `JSON.parse` rejects, throws out of the mount
  effect. The store, the library state and `i18nInstance` are left unchanged, and `initialize` is not
  called (`StorageRead.Blocked`, `Parsed.Throws`, `SeedAction.Abort`).
- The switch action only updates the store. It does not call into the library, write storage or
  write the document language itself (`app/components/LanguageSelector.tsx:65-72`).
- There is no in-flight guard: `instance` is set only after the library's `init` completes.
- There is no `NotStarted`/`Loading`/`Ready` state. The only gate is whether `i18nInstance` is set.

Inputs: `localStorage.getItem('userSettings')` (which may throw), `JSON.parse`, whether `window` exists, and
`getBrowserLanguageCodeShort()` are fields of `AppBootstrap.Environment`. The handle the library's
`init` yields is the parameter `lib`. The library's active language, which the buttons compare against,
is the parameter `activeLanguage`. `libraryInits` is a log of the options the library's `init` was
called with; it is ghost in the class.

## Model

| member | source | states |
|---|---|---|
| `LocalizationHelper.Initial` | app/helper/LocalizationHelper.ts:7-35 | at module load there is no instance, `lng` and `fallbackLng` are `'en'`, the library has not been initialized, and the invariant holds |
| `LocalizationHelper.Step` | app/helper/LocalizationHelper.ts:43-56 | afterwards an instance is stored and it is the returned value; with an instance already set, the state is unchanged and that instance is returned whatever the key; otherwise a truthy key becomes `lng` (an absent or empty key keeps it), the document language becomes `lng`, the library is initialized once with `lng` and the fallback, and its handle is returned; `fallbackLng` never changes; the invariant is preserved |
| `LocalizationHelper.Run` | app/helper/LocalizationHelper.ts:43-56 | a sequence of calls returns one handle per call |
| `LocalizationHelper.RunSettled` | app/helper/LocalizationHelper.ts:44-55 | once an instance is stored, any number of further calls with any keys leaves the whole state unchanged and every call returns that instance |
| `LocalizationHelper.RunFromInitial` | app/helper/LocalizationHelper.ts:28-56 | from the load state, any non-empty sequence of calls ends in the state the first call produced: one library initialization, `lng` is the first key if truthy and `'en'` otherwise, the document language equals `lng`, and every caller receives the same first handle |
| `LocalizationHelper.RunKeepsValid` | app/helper/LocalizationHelper.ts:28-56 | every state reachable by calls keeps the invariant: `lng` non-empty, `fallbackLng` is `'en'`, an instance exists exactly when the library was initialized, and then it was initialized exactly once with the current `lng`, which the document shows |
| `LocalizationHelper.Localizer.constructor` | app/helper/LocalizationHelper.ts:7-35 | the module state starts as the load state |
| `LocalizationHelper.Localizer.Initialize` | app/helper/LocalizationHelper.ts:43-56 | updates the module state in place exactly as `Step` says, keeps the invariant, and returns the stored instance |
| `UserStore.Store.UpdateUserSettings` | app/pages/_app.tsx:34 | the dispatched object becomes the store's settings and is logged as dispatched |
| `AppBootstrap.SeedActionOf` | app/pages/_app.tsx:30-35 | the store is left alone exactly when there is no `window` or no non-empty stored string; the effect throws exactly when `window` exists and the storage read throws, or the stored string fails to parse; a truthy parse result seeds exactly that record and a falsy one seeds `{ language: '' }` |
| `AppBootstrap.Seeded` | app/pages/_app.tsx:34 | a seed replaces the store's settings; otherwise they are kept |
| `AppBootstrap.InitLanguage` | app/pages/_app.tsx:38 | the store's language when it is set and non-empty, otherwise the browser's short code |
| `AppBootstrap.Render` | app/pages/_app.tsx:65-75 | the provider tree is rendered exactly when an instance is present, with that instance; otherwise only the head |
| `AppBootstrap.Boot` | app/pages/_app.tsx:28-42 | the effect aborts exactly when the storage read or the parse throws; otherwise the returned instance is the one stored in the library state, and the library invariant is preserved |
| `AppBootstrap.StoredPreferenceWins` | app/pages/_app.tsx:31-39 | because the language is read after seeding, a stored non-empty language is what the library is initialized with and what the document shows, whatever the browser says |
| `AppBootstrap.BrowserLanguageWithoutPreference` | app/pages/_app.tsx:38-39 | with no language in the seeded store, `lng` becomes the browser's code, or stays `'en'` when that code is empty |
| `AppBootstrap.RemountKeepsInstance` | app/pages/_app.tsx:28-42 | a second run of the effect keeps the library state and returns the instance from the first run |
| `AppBootstrap.App.constructor` | app/pages/_app.tsx:21 | `i18nInstance` starts unset, so only the head is rendered |
| `AppBootstrap.App.MountEffect` | app/pages/_app.tsx:28-42 | when the storage read or parsing throws nothing changes; otherwise the store, the library state and `i18nInstance` become what `Boot` gives and the full tree is rendered; a seed dispatches exactly the seeded record, and no seed leaves the store's object and its dispatches unchanged |
| `LanguageSelector.LanguageButton` | app/components/LanguageSelector.tsx:35-39 | a button carries its own code as click key and is disabled exactly when its code is the active language |
| `LanguageSelector.Buttons` | app/components/LanguageSelector.tsx:84-107 | exactly `'en'` then `'de'` are offered, each passes its own code on click, each is disabled exactly when its code is the active language |
| `LanguageSelector.AtMostOneDisabled` | app/components/LanguageSelector.tsx:89-101 | at most one button is disabled at a time, and one is disabled exactly when the active language is offered |
| `LanguageSelector.Switched` | app/components/LanguageSelector.tsx:70-71 | after a switch `language` is the key and every other field is kept; the value is unchanged exactly when it already had that language |
| `LanguageSelector.SwitchedPreferenceIsInitLanguage` | app/components/LanguageSelector.tsx:65-72 | `InitLanguage` applied to a settings value switched to a non-empty key picks that key over the browser's code; this says nothing about a later start-up, which runs once per page load and sees the value only if the store persists it |
| `LanguageSelector.UpdateLanguageSetting` | app/components/LanguageSelector.tsx:65-72 | with no settings nothing changes and nothing is dispatched; otherwise the store's object gets the key in place, and a fresh copy equal to it, with the other fields kept, is dispatched once and becomes the store's settings |

## Left out

- AppBootstrap.Boot, AppBootstrap.App.MountEffect: effects run only in the browser, so the `typeof window` check (`app/pages/_app.tsx:30`) is always true inside the effect. For `hasWindow` false the model still boots fully and lets the document write succeed; in a host without `window` there is no `document` either, so `initialize` would throw at `app/helper/LocalizationHelper.ts:50` after overwriting `lng`, and only the head would render.
- The translation library and its HTTP backend (`app/helper/LocalizationHelper.ts:1-2`, `12-23`, `31-34`, `52`): a foreign library with network I/O. Its `init` is an abstract step that yields the handle `lib`. Its resulting active language is not modelled. The model's `fallbackLng` is what `LocalizationHelper.ts` writes; what `init` does to the options object it is handed (line 52) is not modelled.
- The `await` in `initialize` and the promise in the mount effect: calls run one after another. Two calls overlapping at the `await` could both initialize the library. No claim is made about concurrent calls.
- `export default instance` (`app/helper/LocalizationHelper.ts:58`) exports the value `instance` has at module load, which is always unset. Nothing in the modelled code uses it.
- `localStorage`, `JSON.parse`, `typeof window` and `getBrowserLanguageCodeShort` are inputs. `app/helper/BrowserHelper.ts` is not part of this model.
- The store (`app/store/Store.ts`) is not part of this model. Its `updateUserSettings` is taken to make the payload the new `userSettings`. Any persistence it does is not modelled.
- Parse results that are not plain records: a truthy value that is not an object (`JSON.parse('1')`, `'"de"'`, `'true'`) is seeded as it is in the code, after which `userSettings?.language` is undefined and the selector's `userSettings.language = key` throws a TypeError; a record whose `language` is not a string. A parsed record is modelled as a string `language` plus a map `other` that holds only string-valued fields.
- What React and Next.js render after the mount effect throws (the framework's error page, or an unmounted root without an error boundary).
- React rendering, the popover's open state, the head and meta tags, Next.js `Link` locale routing, and the translated button texts and aria labels.
- `app/components/menus/TopMenu.tsx`, `app/components/menus/FooterMenu.tsx` and `app/pages/api/locales/[lng].ts`: presentation, or the server side of bundle loading.
