/**
 * The light/dark switch of js/theme-toggle.js. The state is the
 * `data-theme` attribute of the document root, the saved preference under
 * 'theme-preference', and the toggle button's aria-label.
 */
module ThemeToggle {
  import opened Wrappers

  /** `getThemePreference()`: the saved value, or 'dark' when nothing (or the
      empty string) is saved. */
  function Preference(saved: Option<string>): (theme: string)
    ensures theme != []
    ensures saved.Some? && saved.value != [] ==> theme == saved.value
    ensures saved.None? || saved.value == [] ==> theme == "dark"
  {
    if saved.Some? && saved.value != [] then saved.value else "dark"
  }

  /** The `data-theme` attribute `applyTheme(theme)` leaves: 'light' for the
      light theme, removed for any other value. */
  function Applied(theme: string): (attr: Option<string>)
    ensures attr.Some? <==> theme == "light"
    ensures attr.Some? ==> attr.value == "light"
  {
    if theme == "light" then Some("light") else None
  }

  /** The theme `toggleTheme()` switches to: dark from light, light from
      anything else. */
  function NextTheme(attr: Option<string>): (theme: string)
    ensures theme == "dark" <==> attr == Some("light")
    ensures theme == "dark" || theme == "light"
  {
    if attr == Some("light") then "dark" else "light"
  }

  /** The button's aria-label for a theme. */
  function Label(theme: string): (ariaLabel: string)
    ensures ariaLabel == "Switch to dark mode" <==> theme == "light"
    ensures ariaLabel != "Switch to dark mode" ==> ariaLabel == "Switch to light mode"
  {
    if theme == "light" then "Switch to dark mode" else "Switch to light mode"
  }

  /** The attribute states `applyTheme` can produce. */
  predicate Reachable(attr: Option<string>) {
    attr == None || attr == Some("light")
  }

  /** Toggling twice restores any attribute state `applyTheme` can produce. */
  lemma ToggleTwice(attr: Option<string>)
    requires Reachable(attr)
    ensures Applied(NextTheme(Applied(NextTheme(attr)))) == attr
  {
  }

  /** A `data-theme="dark"` set by something other than this script after
      load (`initTheme` already removes one that comes with the markup) does
      not come back after two toggles: the attribute is removed instead. */
  lemma ToggleTwiceFromMarkupDark()
    ensures Applied(NextTheme(Applied(NextTheme(Some("dark"))))) == None
  {
  }

  /** The saved preference reproduces the toggled state on the next page
      load: `initTheme` applies exactly what the toggle applied. */
  lemma ToggleSurvivesReload(attr: Option<string>)
    ensures Applied(Preference(Some(NextTheme(attr)))) == Applied(NextTheme(attr))
  {
  }

  class Theme {
    /** `data-theme` on the document root. */
    var attr: Option<string>
    /** localStorage 'theme-preference'. */
    var saved: Option<string>
    /** The `.theme-toggle` button's aria-label. */
    var ariaLabel: Option<string>
    /** Whether the page has the button. */
    const hasButton: bool

    /** Page load: `initTheme()` runs at once, `setupToggleButton()` after
        the DOM is ready. */
    constructor (saved: Option<string>, hasButton: bool)
      ensures this.saved == saved && this.hasButton == hasButton
      ensures attr == Applied(Preference(saved))
      ensures Reachable(attr)
      ensures ariaLabel == if hasButton then Some(Label(Preference(saved))) else None
    {
      this.saved := saved;
      this.hasButton := hasButton;
      attr := Applied(Preference(saved));
      ariaLabel := if hasButton then Some(Label(Preference(saved))) else None;
    }

    /** `applyTheme(theme)`. */
    method ApplyTheme(theme: string)
      modifies this`attr
      ensures attr == Applied(theme)
    {
      if theme == "light" {
        attr := Some("light");
      } else {
        attr := None;
      }
    }

    /** `toggleTheme()`: the attribute, the saved preference and the label
        all move to the new theme. */
    method ToggleTheme()
      modifies this`attr, this`saved, this`ariaLabel
      ensures attr == Applied(NextTheme(old(attr)))
      ensures saved == Some(NextTheme(old(attr)))
      ensures Preference(saved) == NextTheme(old(attr))
      ensures hasButton ==> ariaLabel == Some(Label(NextTheme(old(attr))))
      ensures !hasButton ==> ariaLabel == old(ariaLabel)
      ensures hasButton ==> (ariaLabel == Some("Switch to dark mode") <==> attr == Some("light"))
    {
      var current := attr;
      var newTheme := if current == Some("light") then "dark" else "light";
      ApplyTheme(newTheme);
      saved := Some(newTheme);
      if hasButton {
        ariaLabel := Some(if newTheme == "light" then "Switch to dark mode" else "Switch to light mode");
      }
    }

    /** The button's keydown listener: Enter and Space toggle once, any
        other key does nothing. */
    method KeyDown(key: string)
      modifies this`attr, this`saved, this`ariaLabel
      ensures key == "Enter" || key == " " ==>
        attr == Applied(NextTheme(old(attr))) && saved == Some(NextTheme(old(attr)))
      ensures (key == "Enter" || key == " ") && hasButton ==> ariaLabel == Some(Label(NextTheme(old(attr))))
      ensures (key == "Enter" || key == " ") && !hasButton ==> ariaLabel == old(ariaLabel)
      ensures !(key == "Enter" || key == " ") ==>
        attr == old(attr) && saved == old(saved) && ariaLabel == old(ariaLabel)
    {
      if key == "Enter" || key == " " {
        ToggleTheme();
      }
    }
  }
}
