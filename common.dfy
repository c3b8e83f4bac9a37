/** Small value types shared by the localization model. */
module Common {

  /** A value that may be absent (`undefined` in the application). */
  datatype Option<+T> = None | Some(value: T)

  /** The handle an initialized translation library hands back (an `i18n` object). */
  datatype Handle = Handle(id: nat)

  /** The default display language and the library's fallback language. */
  const DefaultLanguage: string := "en"

  /** JavaScript truthiness of a string: only the empty string is falsy. */
  predicate Truthy(s: string)
  {
    s != ""
  }

  /** Truthiness of an optional string argument: `undefined` and `''` are falsy. */
  predicate TruthyKey(key: Option<string>)
  {
    key.Some? && Truthy(key.value)
  }
}
