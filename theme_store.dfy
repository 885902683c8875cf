/** The front end's theme store (Front/src/stores/theme.store.ts): the chosen
    theme, whether the page is dark, the `dark` class on the document element
    and the `meteobot-theme` entry of local storage. The system's
    `prefers-color-scheme: dark` answer is an input of each operation that
    reads it. */
module ThemeStore {
  import opened Wrappers

  datatype Theme = Light | Dark | Auto

  const StorageKey: string := "meteobot-theme"

  /** The value `updateTheme` stores for a theme. */
  function ThemeName(t: Theme): (r: string)
    ensures ParseSaved(Some(r)) == t
  {
    match t
    case Light => "light"
    case Dark => "dark"
    case Auto => "auto"
  }

  /** `initializeTheme`'s reading of the stored value: one of the three
      names is kept, anything else (or nothing) means `auto`. */
  function ParseSaved(saved: Option<string>): (t: Theme)
    ensures t == Light <==> saved == Some("light")
    ensures t == Dark <==> saved == Some("dark")
    ensures t == Auto <==> saved != Some("light") && saved != Some("dark")
  {
    if saved == Some("light") then Light
    else if saved == Some("dark") then Dark
    else Auto
  }

  /** `shouldBeDark` of `updateTheme`. */
  predicate ShouldBeDark(t: Theme, systemPrefersDark: bool) {
    t == Dark || (t == Auto && systemPrefersDark)
  }

  /** The theme `toggleTheme` selects: the opposite of what is shown. */
  function Toggled(t: Theme, systemPrefersDark: bool): (r: Theme)
    ensures r != Auto
    ensures ShouldBeDark(r, systemPrefersDark) == !ShouldBeDark(t, systemPrefersDark)
    ensures t == Light ==> r == Dark
    ensures t == Dark ==> r == Light
  {
    match t
    case Light => Dark
    case Dark => Light
    case Auto => if systemPrefersDark then Light else Dark
  }

  /** Toggling twice from a fixed theme comes back to it; from `auto` it
      lands on the fixed theme that matches what the system shows. */
  lemma ToggleTwice(t: Theme, systemPrefersDark: bool)
    ensures t != Auto ==> Toggled(Toggled(t, systemPrefersDark), systemPrefersDark) == t
    ensures t == Auto ==>
              ShouldBeDark(Toggled(Toggled(t, systemPrefersDark), systemPrefersDark), systemPrefersDark)
              == systemPrefersDark
  {
  }

  class ThemeStore {
    var theme: Theme
    var isDark: bool
    /** The document element carries the `dark` class. */
    var documentDark: bool
    /** The `meteobot-theme` entry of local storage. */
    var stored: Option<string>

    /** The store as created: `light`, not dark; the document and storage
        are as the page left them. */
    constructor (stored: Option<string>, documentDark: bool)
      ensures theme == Light && !isDark
      ensures this.stored == stored && this.documentDark == documentDark
    {
      theme := Light;
      isDark := false;
      this.documentDark := documentDark;
      this.stored := stored;
    }

    /** `updateTheme`: derives `isDark` from the theme, mirrors it on the
        document and stores the theme's name. */
    method UpdateTheme(systemPrefersDark: bool)
      modifies this
      ensures theme == old(theme)
      ensures isDark == ShouldBeDark(theme, systemPrefersDark)
      ensures documentDark == isDark
      ensures stored == Some(ThemeName(theme))
    {
      var shouldBeDark := false;
      if theme == Dark {
        shouldBeDark := true;
      } else if theme == Auto {
        shouldBeDark := systemPrefersDark;
      }
      isDark := shouldBeDark;
      documentDark := shouldBeDark;
      stored := Some(ThemeName(theme));
    }

    /** `initializeTheme`: the stored theme if it is one of the three,
        otherwise `auto`. The `watch` on `theme` runs `updateTheme` once
        more; it changes nothing. */
    method InitializeTheme(systemPrefersDark: bool)
      modifies this
      ensures theme == ParseSaved(old(stored))
      ensures isDark == ShouldBeDark(theme, systemPrefersDark) && documentDark == isDark
      ensures stored == Some(ThemeName(theme))
    {
      var savedTheme := stored;
      if savedTheme == Some("light") || savedTheme == Some("dark") || savedTheme == Some("auto") {
        theme := ParseSaved(savedTheme);
      } else {
        theme := Auto;
      }
      UpdateTheme(systemPrefersDark);
    }

    /** `setTheme`. */
    method SetTheme(newTheme: Theme, systemPrefersDark: bool)
      modifies this
      ensures theme == newTheme
      ensures isDark == ShouldBeDark(newTheme, systemPrefersDark) && documentDark == isDark
      ensures stored == Some(ThemeName(newTheme))
    {
      theme := newTheme;
      UpdateTheme(systemPrefersDark);
    }

    /** `toggleTheme`: never selects `auto`, and always inverts what is
        shown, provided the page showed its theme before. */
    method ToggleTheme(systemPrefersDark: bool)
      modifies this
      ensures theme == Toggled(old(theme), systemPrefersDark) && theme != Auto
      ensures isDark == ShouldBeDark(theme, systemPrefersDark) && documentDark == isDark
      ensures old(isDark) == ShouldBeDark(old(theme), systemPrefersDark) ==> isDark == !old(isDark)
      ensures stored == Some(ThemeName(theme))
    {
      if theme == Light {
        SetTheme(Dark, systemPrefersDark);
      } else if theme == Dark {
        SetTheme(Light, systemPrefersDark);
      } else {
        SetTheme(if systemPrefersDark then Light else Dark, systemPrefersDark);
      }
    }

    /** The `change` listener on the media query: re-derives the display
        only while the theme is `auto`. */
    method OnSystemPreferenceChange(systemPrefersDark: bool)
      modifies this
      ensures theme == old(theme)
      ensures old(theme) == Auto ==>
                isDark == systemPrefersDark && documentDark == systemPrefersDark && stored == Some("auto")
      ensures old(theme) != Auto ==>
                isDark == old(isDark) && documentDark == old(documentDark) && stored == old(stored)
    {
      if theme == Auto {
        UpdateTheme(systemPrefersDark);
      }
    }
  }
}
