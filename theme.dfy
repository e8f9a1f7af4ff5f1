/**
 * The static site's theme switch. The body is in light mode or not; a
 * theme chosen with the buttons is saved and wins over the system's
 * preference, which decides only while nothing is saved.
 */
module Theme {
  import opened Wrappers
  import opened JsText

  /** Whether the body should be in light mode, for the saved theme and the system's preference. */
  function LightMode(saved: Option<string>, prefersDark: bool): bool {
    if Truthy(saved) then saved.value == "light" else !prefersDark
  }

  /** `ThemeManager`, with the parts of the page and the browser it reads and writes. */
  class ThemeManager {
    /** Whether the body carries `light-mode`. */
    var lightMode: bool
    /** The `theme` entry of local storage. */
    var saved: Option<string>
    /** Whether the system prefers a dark scheme. */
    var prefersDark: bool

    /** The body shows the theme the preference rule gives. */
    predicate Valid()
      reads this
    {
      lightMode == LightMode(saved, prefersDark)
    }

    /** Set-up: the stored theme and the system preference as found, then `initializeTheme`. */
    constructor (saved: Option<string>, prefersDark: bool, lightMode: bool)
      ensures Valid()
      ensures this.saved == saved && this.prefersDark == prefersDark
    {
      this.saved, this.prefersDark, this.lightMode := saved, prefersDark, lightMode;
      new;
      InitializeTheme();
    }

    /** `initializeTheme`: the body follows the saved theme, or else the system. */
    method InitializeTheme()
      modifies this
      ensures Valid()
      ensures saved == old(saved) && prefersDark == old(prefersDark)
    {
      if Truthy(saved) {
        lightMode := saved.value == "light";
      } else {
        lightMode := !prefersDark;
      }
    }

    /** `activateDarkMode`: dark, and remembered; the result does not depend on the state before. */
    method ActivateDarkMode()
      modifies this
      requires Valid()
      ensures Valid()
      ensures !lightMode && saved == Some("dark") && prefersDark == old(prefersDark)
    {
      lightMode := false;
      saved := Some("dark");
    }

    /** `activateLightMode`: light, and remembered; the result does not depend on the state before. */
    method ActivateLightMode()
      modifies this
      requires Valid()
      ensures Valid()
      ensures lightMode && saved == Some("light") && prefersDark == old(prefersDark)
    {
      lightMode := true;
      saved := Some("light");
    }

    /** `handleSystemThemeChange`: the new preference shows only while no theme is saved. */
    method HandleSystemThemeChange(matches: bool)
      modifies this
      requires Valid()
      ensures Valid()
      ensures prefersDark == matches && saved == old(saved)
      ensures Truthy(saved) ==> lightMode == old(lightMode)
      ensures !Truthy(saved) ==> lightMode == !matches
    {
      prefersDark := matches;
      if !Truthy(saved) {
        lightMode := !matches;
      }
    }
  }
}
