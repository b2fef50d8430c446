/**
 * The theme table and setTabBackground's effect on a tab (audioplayer.js:32-39, :174-188).
 */
module Themes {
  import opened Wrappers

  /** `tabBackgrounds`: the tab background colour for each known theme. */
  const TabBackgrounds: map<string, string> := map[
    "flat-light" := "#F1F1F1",
    "flat-dark" := "#3D3D3D",
    "light" := "#D3D3D3",
    "light-gray" := "#D3D3D3",
    "dark" := "#3D3D3D",
    "dark-gray" := "#3D3D3D"
  ]

  /** `tabBackgrounds[theme]`, with None for JavaScript's `undefined`. */
  function BackgroundFor(theme: string): Option<string> {
    if theme in TabBackgrounds then Some(TabBackgrounds[theme]) else None
  }

  /** The argument of setTabBackground: not an object, an object whose `theme` is not a string, or a theme name. */
  datatype ThemeEvent = NotAnObject | NoStringTheme | ThemeNamed(theme: string)

  /** The part of a tab that setTabBackground writes: `backgroundColor` and the `dark` class. */
  datatype TabStyle = TabStyle(background: Option<string>, dark: bool)

  /** The tab style after setTabBackground(e). */
  function Restyle(style: TabStyle, e: ThemeEvent): TabStyle {
    match e
    case ThemeNamed(theme) => TabStyle(BackgroundFor(theme), theme == "dark")
    case _ => style
  }

  /** An unknown theme leaves the tab with an undefined background and without the dark class. */
  lemma UnknownThemeClearsStyle(style: TabStyle, theme: string)
    requires theme !in TabBackgrounds
    ensures Restyle(style, ThemeNamed(theme)) == TabStyle(None, false)
  {
  }

  /** The dark themes share one colour, but only the theme named exactly "dark" gets the dark class. */
  lemma DarkClassOnlyForDark(style: TabStyle)
    ensures Restyle(style, ThemeNamed("dark")) == TabStyle(Some("#3D3D3D"), true)
    ensures Restyle(style, ThemeNamed("flat-dark")) == TabStyle(Some("#3D3D3D"), false)
    ensures Restyle(style, ThemeNamed("dark-gray")) == TabStyle(Some("#3D3D3D"), false)
  {
  }

  /** The latest well-formed theme event alone decides the style; malformed events in between do not matter. */
  lemma LatestThemeWins(style: TabStyle, earlier: ThemeEvent, theme: string)
    ensures Restyle(Restyle(style, earlier), ThemeNamed(theme)) == Restyle(style, ThemeNamed(theme))
    ensures Restyle(Restyle(style, ThemeNamed(theme)), earlier) == (if earlier.ThemeNamed? then Restyle(style, earlier) else Restyle(style, ThemeNamed(theme)))
  {
  }
}
