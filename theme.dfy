/** The theme store: a theme string toggled between "light" and "dark". */
module Theme {

  predicate IsTheme(t: string) {
    t == "light" || t == "dark"
  }

  /** The context value a consumer sees outside any provider. */
  datatype ThemeContextValue = ThemeContextValue(theme: string)

  const DefaultContext := ThemeContextValue("light")

  /** The updater passed to `setTheme`: "light" becomes "dark", anything else "light". */
  function NextTheme(prev: string): (next: string)
    ensures IsTheme(next)
    ensures next == "dark" <==> prev == "light"
    ensures next != prev
  {
    if prev == "light" then "dark" else "light"
  }

  lemma ToggleTwiceRestores(t: string)
    requires IsTheme(t)
    ensures NextTheme(NextTheme(t)) == t
  {
  }

  /** The `ThemeProvider` component's `theme` state. */
  class ThemeProvider {
    var theme: string

    ghost predicate Valid()
      reads this
    {
      IsTheme(theme)
    }

    constructor ()
      ensures Valid() && theme == "light" && theme == DefaultContext.theme
    {
      theme := "light";
    }

    method ToggleTheme()
      modifies this
      ensures Valid() && theme == NextTheme(old(theme))
    {
      theme := NextTheme(theme);
    }
  }

  /** Mount, toggle once, toggle again: light, dark, light. */
  method ToggleScenario() returns (p: ThemeProvider)
    ensures fresh(p) && p.theme == "light"
  {
    p := new ThemeProvider();
    p.ToggleTheme();
    assert p.theme == "dark";
    p.ToggleTheme();
  }
}
