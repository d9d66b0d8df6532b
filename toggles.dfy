/** The two click toggles of the page: the hamburger menu with its
    `aria-expanded` attribute (js/main.js:33-48) and the light/dark theme with
    its stored preference (js/main.js:50-72). */
module Toggles {

  /** How `setAttribute` writes a boolean: as "true" or "false". */
  function AttributeText(b: bool): (r: string)
    ensures r == "true" || r == "false"
    ensures r == "true" <==> b
  {
    if b then "true" else "false"
  }

  /** The attribute a hamburger click writes, given the one it read: the
      menu counts as expanded only when the attribute reads exactly "true"
      (a missing attribute or any other text counts as collapsed). */
  function ToggledExpanded(current: string): (r: string)
    ensures r == "true" || r == "false"
    ensures r == "true" <==> current != "true"
  {
    var isExpanded := current == "true";
    AttributeText(!isExpanded)
  }

  /** Two clicks restore an attribute that reads "true" or "false"; any other
      text becomes "false". */
  lemma ToggledTwice(current: string)
    ensures ToggledExpanded(ToggledExpanded(current)) == if current == "true" then "true" else "false"
  {
  }

  class Navbar {
    /** Whether `navbar.classList` contains "active". */
    var menuOpen: bool
    /** The hamburger's `aria-expanded` attribute ("" when the markup has none). */
    var ariaExpanded: string

    /** The attribute tells assistive technology the truth about the menu. */
    predicate InSync()
      reads this
    {
      menuOpen <==> ariaExpanded == "true"
    }

    constructor (menuOpen: bool, ariaExpanded: string)
      ensures this.menuOpen == menuOpen && this.ariaExpanded == ariaExpanded
    {
      this.menuOpen := menuOpen;
      this.ariaExpanded := ariaExpanded;
    }

    /** A click on the hamburger flips the menu and the attribute. */
    method HamburgerClick()
      modifies this
      ensures menuOpen == !old(menuOpen)
      ensures ariaExpanded == ToggledExpanded(old(ariaExpanded))
      ensures old(InSync()) ==> InSync()
    {
      menuOpen := !menuOpen;
      var isExpanded := ariaExpanded == "true";
      ariaExpanded := AttributeText(!isExpanded);
    }

    /** A click on a navigation link closes the menu and says so. */
    method NavLinkClick()
      modifies this
      ensures !menuOpen && ariaExpanded == "false"
      ensures InSync()
    {
      menuOpen := false;
      ariaExpanded := "false";
    }
  }

  /** The `localStorage` key of the theme preference. */
  const ThemeKey: string := "theme"

  /** The value a theme click stores. */
  function StoredTheme(lightMode: bool): (r: string)
    ensures r == "light" || r == "dark"
    ensures r == "light" <==> lightMode
  {
    if lightMode then "light" else "dark"
  }

  /** Whether the body is in light mode once the page has loaded: the markup's
      own class, to which the script adds light mode when the stored
      preference is "light". */
  function LoadedLightMode(storage: map<string, string>, markupLight: bool): bool {
    markupLight || (ThemeKey in storage && storage[ThemeKey] == "light")
  }

  class Theme {
    /** Whether `document.body.classList` contains "light-mode". */
    var lightMode: bool
    /** The page's `localStorage`. */
    var storage: map<string, string>

    /** The stored preference names the mode the body is in. */
    predicate Persisted()
      reads this
    {
      ThemeKey in storage && (storage[ThemeKey] == "light" <==> lightMode)
    }

    /** Page load: light mode comes on when the stored preference is "light". */
    constructor (storage: map<string, string>, markupLight: bool)
      ensures this.storage == storage
      ensures lightMode == LoadedLightMode(storage, markupLight)
    {
      this.storage := storage;
      lightMode := markupLight;
      if ThemeKey in storage && storage[ThemeKey] == "light" {
        lightMode := true;
      }
    }

    /** A click on the theme button flips the mode and stores the new one,
        leaving every other stored entry as it was. */
    method ToggleClick()
      modifies this
      ensures lightMode == !old(lightMode)
      ensures storage == old(storage)[ThemeKey := StoredTheme(lightMode)]
      ensures Persisted()
    {
      lightMode := !lightMode;
      if lightMode {
        storage := storage[ThemeKey := "light"];
      } else {
        storage := storage[ThemeKey := "dark"];
      }
    }
  }

  /** The preference a click stores brings the page back in the same mode on
      the next load, from markup without the light-mode class. */
  lemma ReloadRestoresTheme(storage: map<string, string>, lightMode: bool)
    ensures LoadedLightMode(storage[ThemeKey := StoredTheme(lightMode)], false) == lightMode
  {
  }

  /** A click, then a reload of the same markup, shows the mode the click
      chose, unless the markup itself carries the light-mode class: the
      script only ever adds that class on load, so such a page always comes
      back light. */
  method ClickThenReload(storage: map<string, string>, markupLight: bool)
    returns (clicked: bool, reloaded: bool)
    ensures reloaded == (markupLight || clicked)
    ensures clicked == !LoadedLightMode(storage, markupLight)
  {
    var theme := new Theme(storage, markupLight);
    theme.ToggleClick();
    var next := new Theme(theme.storage, markupLight);
    clicked, reloaded := theme.lightMode, next.lightMode;
  }
}
