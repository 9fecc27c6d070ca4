/**
 * Theme resolution and the theme toggle. The page state the theme code
 * touches is the root element's `data-theme` attribute, the text of the
 * theme icon and the `theme` key of local storage.
 */
module Theme {
  import opened Wrappers

  const THEME_KEY := "theme"
  const LIGHT := "light"
  const DARK := "dark"
  /** Icon text shown for the light theme. */
  const LIGHT_GLYPH := "◑"
  /** Icon text shown for every other theme value. */
  const DARK_GLYPH := "◐"

  /** What asking the browser for `(prefers-color-scheme: dark)` gives. */
  datatype ColorSchemeQuery =
    | Unsupported          // `window.matchMedia` is absent
    | Answer(dark: bool)   // the query ran; `dark` is its `matches` flag
    | Throws               // the query raised an exception

  /** JavaScript truthiness of a value read from local storage: `null` and "" are falsy. */
  predicate IsSet(saved: Option<string>)
    ensures saved == None || saved == Some("") ==> !IsSet(saved)
    ensures saved.Some? && saved.value != "" ==> IsSet(saved)
  {
    saved.Some? && saved.value != ""
  }

  /** The stored preference, `localStorage.getItem('theme')`. */
  function Saved(storage: map<string, string>): (saved: Option<string>)
    ensures saved.Some? <==> THEME_KEY in storage
    ensures saved.Some? ==> saved.value == storage[THEME_KEY]
  {
    if THEME_KEY in storage then Some(storage[THEME_KEY]) else None
  }

  /** `getSystemTheme`: dark when the query says dark or fails, light otherwise. */
  function SystemTheme(q: ColorSchemeQuery): (t: string)
    ensures t == DARK || t == LIGHT
    ensures t == DARK <==> q.Throws? || (q.Answer? && q.dark)
  {
    match q
    case Unsupported => LIGHT
    case Answer(dark) => if dark then DARK else LIGHT
    case Throws => DARK
  }

  /** The theme chosen at page load: `savedTheme || getSystemTheme()`. */
  function InitialTheme(saved: Option<string>, q: ColorSchemeQuery): (t: string)
    ensures IsSet(saved) ==> t == saved.value
    ensures !IsSet(saved) ==> t == SystemTheme(q)
  {
    if IsSet(saved) then saved.value else SystemTheme(q)
  }

  /**
   * The `data-theme` attribute after page load: set to "dark" for the dark
   * theme, left as the document had it otherwise.
   */
  function InitialAttribute(before: Option<string>, theme: string): (attr: Option<string>)
    ensures theme == DARK ==> attr == Some(DARK)
    ensures theme != DARK ==> attr == before
  {
    if theme == DARK then Some(DARK) else before
  }

  /** The theme the toggle switches to, given the current `data-theme` attribute. */
  function Toggled(attr: Option<string>): (t: string)
    ensures t == DARK || t == LIGHT
    ensures t == DARK <==> attr == Some(LIGHT)
  {
    if attr == Some(LIGHT) then DARK else LIGHT
  }

  /** `updateThemeIcon`: the icon text for a theme. */
  function Glyph(theme: string): (g: string)
    ensures g == LIGHT_GLYPH || g == DARK_GLYPH
    ensures g == LIGHT_GLYPH <==> theme == LIGHT
  {
    if theme == LIGHT then LIGHT_GLYPH else DARK_GLYPH
  }

  /** A page that starts light never gets a `data-theme`, so its first toggle resolves to light again. */
  lemma LightStartFirstToggleStaysLight(saved: Option<string>, q: ColorSchemeQuery)
    requires InitialTheme(saved, q) == LIGHT
    ensures InitialAttribute(None, InitialTheme(saved, q)) == None
    ensures Toggled(InitialAttribute(None, InitialTheme(saved, q))) == LIGHT
  {
  }

  /** From an attribute of "light" or "dark", two toggles restore it. */
  lemma ToggleTwiceRestores(theme: string)
    requires theme == LIGHT || theme == DARK
    ensures Toggled(Some(Toggled(Some(theme)))) == theme
  {
  }

  /** Once the toggle has set the attribute, every further toggle flips the theme. */
  lemma ToggleAlternates(attr: Option<string>)
    ensures Toggled(Some(Toggled(attr))) != Toggled(attr)
  {
  }

  /** The theme element states of the page. */
  class ThemeView {
    /** The root element's `data-theme` attribute. */
    var dataTheme: Option<string>
    /** The theme icon's text content. */
    var icon: string
    /** The page's local storage. */
    var storage: map<string, string>
    /** Whether the system colour-scheme listener was installed at load. */
    const listening: bool

    /** Page load: choose the theme, mark it on the root element when dark, show its icon. */
    constructor (before: Option<string>, storage: map<string, string>, q: ColorSchemeQuery)
      ensures dataTheme == InitialAttribute(before, InitialTheme(Saved(storage), q))
      ensures icon == Glyph(InitialTheme(Saved(storage), q))
      ensures this.storage == storage
      ensures listening <==> q.Answer?
    {
      var current := InitialTheme(Saved(storage), q);
      dataTheme := before;
      if current == DARK {
        dataTheme := Some(DARK);
      }
      this.storage := storage;
      icon := Glyph(current);
      // Installing the listener calls `matchMedia` again; it fails exactly when the first query could not answer.
      listening := q.Answer?;
    }

    /** Click on the theme toggle: switch, persist, and update the icon. */
    method OnToggleClick()
      modifies this
      ensures dataTheme == Some(Toggled(old(dataTheme)))
      ensures storage == old(storage)[THEME_KEY := Toggled(old(dataTheme))]
      ensures icon == Glyph(Toggled(old(dataTheme)))
      ensures Saved(storage) == dataTheme && IsSet(Saved(storage))
    {
      var newTheme := Toggled(dataTheme);
      dataTheme := Some(newTheme);
      storage := storage[THEME_KEY := newTheme];
      icon := Glyph(newTheme);
    }

    /** A change of the system colour scheme: followed, if the listener exists, only while no preference is stored. */
    method OnSystemSchemeChange(dark: bool)
      modifies this
      ensures storage == old(storage)
      ensures !listening || IsSet(Saved(old(storage))) ==> dataTheme == old(dataTheme) && icon == old(icon)
      ensures listening && !IsSet(Saved(old(storage))) ==>
        var t := SystemTheme(Answer(dark));
        dataTheme == Some(t) && icon == Glyph(t)
    {
      if listening && !IsSet(Saved(storage)) {
        var newTheme := if dark then DARK else LIGHT;
        dataTheme := Some(newTheme);
        icon := Glyph(newTheme);
      }
    }
  }

  /** A light page with no stored preference: the first click keeps it light, the second makes it dark. */
  method LightPageScenario()
  {
    var view := new ThemeView(None, map[], Answer(false));
    assert view.dataTheme == None && view.icon == LIGHT_GLYPH;
    view.OnToggleClick();
    assert view.dataTheme == Some(LIGHT) && view.storage[THEME_KEY] == LIGHT;
    view.OnToggleClick();
    assert view.dataTheme == Some(DARK) && view.icon == DARK_GLYPH;
    view.OnSystemSchemeChange(false);
    assert view.dataTheme == Some(DARK);
  }

  /** Without `matchMedia` no listener is installed, so a system change leaves the page as it was. */
  method NoMatchMediaScenario()
  {
    var view := new ThemeView(None, map[], Unsupported);
    assert view.dataTheme == None;
    view.OnSystemSchemeChange(true);
    assert view.dataTheme == None && view.icon == LIGHT_GLYPH;
  }
}
