/** The language store: a language code toggled between "en" and "es". */
module Language {

  predicate IsLanguage(l: string) {
    l == "en" || l == "es"
  }

  /** The updater passed to `setLanguage`: "en" becomes "es", anything else "en". */
  function NextLanguage(prev: string): (next: string)
    ensures IsLanguage(next)
    ensures next == "es" <==> prev == "en"
    ensures next != prev
  {
    if prev == "en" then "es" else "en"
  }

  lemma ToggleTwiceRestores(l: string)
    requires IsLanguage(l)
    ensures NextLanguage(NextLanguage(l)) == l
  {
  }

  /** The `LanguageProvider` component's `language` state. */
  class LanguageProvider {
    var language: string

    ghost predicate Valid()
      reads this
    {
      IsLanguage(language)
    }

    constructor ()
      ensures Valid() && language == "en"
    {
      language := "en";
    }

    method ToggleLanguage()
      modifies this
      ensures Valid() && language == NextLanguage(old(language))
    {
      language := NextLanguage(language);
    }
  }
}
