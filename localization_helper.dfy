/**
 * The once-guarded initializer of the translation library
 * (`app/helper/LocalizationHelper.ts`).
 *
 * The module-level state is the singleton `instance`, the shared init options
 * (`lng`, `fallbackLng`) and the document's `lang` attribute, which the first call
 * writes. The library's own `init` is an abstract step: it is given the init options
 * and yields a handle; the model records each such call in `libraryInits`.
 */
module LocalizationHelper {
  import opened Common

  /** The options handed to the library's `init`. */
  datatype InitOptions = InitOptions(lng: string, fallbackLng: string)

  /** The module-level state the initializer reads and writes. */
  datatype HelperState = HelperState(
    instance: Option<Handle>,
    lng: string,
    fallbackLng: string,
    docLang: string,
    libraryInits: seq<InitOptions>)

  /** One call `initialize(key)`, with the handle the library would yield if it ran. */
  datatype Call = Call(key: Option<string>, lib: Handle)

  /** The state when the module is loaded: no instance, `lng` and `fallbackLng` both `'en'`. */
  function Initial(documentLang: string): (s: HelperState)
    ensures s.instance.None? && s.lng == DefaultLanguage && s.fallbackLng == DefaultLanguage
    ensures s.docLang == documentLang && s.libraryInits == []
    ensures ValidState(s)
  {
    HelperState(None, DefaultLanguage, DefaultLanguage, documentLang, [])
  }

  /**
   * The invariant every reachable state keeps: `lng` is never empty, `fallbackLng` stays
   * `'en'`, and an instance exists exactly when the library was initialized, which then
   * happened once, with the current `lng`, and the document language mirrors `lng`.
   */
  ghost predicate ValidState(s: HelperState)
  {
    && s.lng != ""
    && s.fallbackLng == DefaultLanguage
    && (s.instance.None? <==> s.libraryInits == [])
    && (s.instance.Some? ==>
          s.libraryInits == [InitOptions(s.lng, s.fallbackLng)] && s.docLang == s.lng)
  }

  /**
   * `initialize(key)`: on the first call a truthy key overwrites `lng`, a truthy `lng`
   * is written to the document, the library is initialized and its handle stored; every
   * later call changes nothing. The result pairs the new state with the returned handle.
   */
  function Step(s: HelperState, key: Option<string>, lib: Handle): (r: (HelperState, Handle))
    ensures r.0.instance == Some(r.1)
    ensures r.0.fallbackLng == s.fallbackLng
    ensures s.instance.Some? ==> r.0 == s && r.1 == s.instance.value
    ensures s.instance.None? ==>
      && r.1 == lib
      && r.0.lng == (if TruthyKey(key) then key.value else s.lng)
      && r.0.docLang == (if Truthy(r.0.lng) then r.0.lng else s.docLang)
      && r.0.libraryInits == s.libraryInits + [InitOptions(r.0.lng, s.fallbackLng)]
    ensures ValidState(s) ==> ValidState(r.0)
  {
    if s.instance.None? then
      var lng := if TruthyKey(key) then key.value else s.lng;
      var docLang := if Truthy(lng) then lng else s.docLang;
      var options := InitOptions(lng, s.fallbackLng);
      (HelperState(Some(lib), lng, s.fallbackLng, docLang, s.libraryInits + [options]), lib)
    else
      (s, s.instance.value)
  }

  /** A sequence of calls made one after the other: the final state and every returned handle. */
  function Run(s: HelperState, calls: seq<Call>): (r: (HelperState, seq<Handle>))
    ensures |r.1| == |calls|
    decreases |calls|
  {
    if calls == [] then (s, [])
    else
      var first := Step(s, calls[0].key, calls[0].lib);
      var rest := Run(first.0, calls[1..]);
      (rest.0, [first.1] + rest.1)
  }

  /** Once an instance is stored, any number of further calls, whatever their keys, changes nothing and returns it. */
  lemma {:induction false} RunSettled(s: HelperState, calls: seq<Call>)
    requires s.instance.Some?
    ensures Run(s, calls).0 == s
    ensures forall i :: 0 <= i < |calls| ==> Run(s, calls).1[i] == s.instance.value
    decreases |calls|
  {
    if calls != [] {
      RunSettled(Step(s, calls[0].key, calls[0].lib).0, calls[1..]);
    }
  }

  /**
   * From the initial state, any non-empty sequence of calls ends where the first call
   * left it: the library was initialized once, `lng` is decided by the first key only,
   * and every caller gets the first call's handle.
   */
  lemma {:induction false} RunFromInitial(documentLang: string, calls: seq<Call>)
    requires calls != []
    ensures var r := Run(Initial(documentLang), calls);
      && r.0 == Step(Initial(documentLang), calls[0].key, calls[0].lib).0
      && r.0.instance == Some(calls[0].lib)
      && r.0.lng == (if TruthyKey(calls[0].key) then calls[0].key.value else DefaultLanguage)
      && r.0.docLang == r.0.lng
      && r.0.libraryInits == [InitOptions(r.0.lng, DefaultLanguage)]
      && (forall i :: 0 <= i < |calls| ==> r.1[i] == calls[0].lib)
  {
    var s := Initial(documentLang);
    var first := Step(s, calls[0].key, calls[0].lib);
    RunSettled(first.0, calls[1..]);
  }

  /** Every state any sequence of calls reaches from the initial state keeps the invariant. */
  lemma {:induction false} RunKeepsValid(s: HelperState, calls: seq<Call>)
    requires ValidState(s)
    ensures ValidState(Run(s, calls).0)
    decreases |calls|
  {
    if calls != [] {
      RunKeepsValid(Step(s, calls[0].key, calls[0].lib).0, calls[1..]);
    }
  }

  /** The module state of `LocalizationHelper.ts`, updated in place by `Initialize`. */
  class Localizer {
    var instance: Option<Handle>
    var lng: string
    var fallbackLng: string
    var docLang: string
    ghost var libraryInits: seq<InitOptions>

    /** The abstract value of the object. */
    ghost function State(): HelperState
      reads this
    {
      HelperState(instance, lng, fallbackLng, docLang, libraryInits)
    }

    ghost predicate Valid()
      reads this
    {
      ValidState(State())
    }

    /** Module load: `instance` unset, `lng` and `fallbackLng` both `'en'`; the document keeps its language. */
    constructor (documentLang: string)
      ensures State() == Initial(documentLang)
      ensures Valid()
    {
      instance := None;
      lng := DefaultLanguage;
      fallbackLng := DefaultLanguage;
      docLang := documentLang;
      libraryInits := [];
    }

    /**
     * `initialize(languageShortKey?)`. `lib` is the handle the library's `init` yields
     * when it runs; it is ignored once an instance is stored.
     */
    method Initialize(key: Option<string>, lib: Handle) returns (r: Handle)
      requires Valid()
      modifies this
      ensures Valid()
      ensures (State(), r) == Step(old(State()), key, lib)
      ensures instance == Some(r)
      ensures old(instance).Some? ==> r == old(instance).value && State() == old(State())
      ensures old(instance).None? ==>
        && r == lib
        && lng == (if TruthyKey(key) then key.value else old(lng))
        && docLang == lng
        && libraryInits == [InitOptions(lng, DefaultLanguage)]
      ensures fallbackLng == DefaultLanguage
    {
      if instance.None? {
        if TruthyKey(key) {
          lng := key.value;
        }
        if Truthy(lng) {
          docLang := lng;
        }
        libraryInits := libraryInits + [InitOptions(lng, fallbackLng)];
        instance := Some(lib);
      }
      r := instance.value;
    }
  }
}
