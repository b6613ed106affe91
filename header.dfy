/** The translated header: a two-entry table indexed by the current language. */
module Translations {
  import opened Wrappers
  import Language

  datatype Strings = Strings(welcome: string, changeBtn: string, status: string)

  const English := Strings("Welcome to our App", "Change Language", "Current Language is English")
  const Spanish := Strings("Bienvenido a nuestra aplicación", "Cambiar idioma", "El idioma actual es español")

  const Table: map<string, Strings> := map["en" := English, "es" := Spanish]

  /**
   * `translations[language]`; `None` is the `undefined` on which the
   * destructuring in the header would throw.
   */
  function Lookup(language: string): (r: Option<Strings>)
    ensures r.Some? <==> Language.IsLanguage(language)
    ensures language == "en" ==> r == Some(English)
    ensures language == "es" ==> r == Some(Spanish)
  {
    if language in Table then Some(Table[language]) else None
  }

  lemma TableKeys()
    ensures Table.Keys == {"en", "es"}
  {
  }

  /** Whatever the provider holds, the lookup succeeds: from mount and after any toggle. */
  lemma LookupTotalOnReachable(language: string)
    requires Language.IsLanguage(language)
    ensures Lookup(language).Some?
    ensures Lookup(Language.NextLanguage(language)).Some?
  {
  }
}
