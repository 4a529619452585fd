/**
 * The colour theme: the `data-theme` attribute of the root element and the
 * "theme" key that persists it. The key holds the bare theme name (no JSON);
 * at start-up an absent or empty key means "dark", and the toggle button
 * turns "dark" into "light" and anything else into "dark".
 */
module Theme {
  import opened Wrappers

  /** `loadTheme`: the stored name, or "dark" when the key is absent or holds "". */
  function LoadTheme(saved: Option<string>): (r: string)
    ensures r != []
    ensures saved.Some? && saved.value != [] ==> r == saved.value
    ensures saved.None? || saved.value == [] ==> r == "dark"
  {
    match saved
    case Some(name) => if name == [] then "dark" else name
    case None => "dark"
  }

  /** `toggleTheme` on the current attribute: "light" exactly when it was "dark", "dark" otherwise. */
  function ToggleTheme(current: string): (r: string)
    ensures r == "dark" || r == "light"
    ensures r == "light" <==> current == "dark"
    ensures r != current || current !in {"dark", "light"}
  {
    if current == "dark" then "light" else "dark"
  }

  /**
   * Pressing the button twice gives back the theme exactly when it was one of
   * the two the button knows; any other name ends up as "light".
   */
  lemma ToggleThemeTwice(current: string)
    ensures ToggleTheme(ToggleTheme(current)) == current <==> current in {"dark", "light"}
    ensures current !in {"dark", "light"} ==> ToggleTheme(ToggleTheme(current)) == "light"
  {
    assert "dark" != "light";
  }

  /** Reloading the page after a toggle starts in the theme the toggle chose. */
  lemma ReloadAfterToggle(current: string)
    ensures LoadTheme(Some(ToggleTheme(current))) == ToggleTheme(current)
  {
  }

  /** The root element's theme attribute and the "theme" key. */
  class ThemeController {
    var dataTheme: string
    var saved: Option<string>

    /** A reload would start in the theme shown now. */
    ghost predicate Valid()
      reads this
    {
      LoadTheme(saved) == dataTheme
    }

    /** The script's start-up: `loadTheme` sets the attribute from the key and stores nothing. */
    constructor (saved: Option<string>)
      ensures this.saved == saved
      ensures dataTheme == LoadTheme(saved)
      ensures Valid()
    {
      this.saved := saved;
      dataTheme := LoadTheme(saved);
    }

    /** The theme button: switch the attribute and store the new name. */
    method Toggle()
      modifies this
      ensures dataTheme == ToggleTheme(old(dataTheme))
      ensures saved == Some(dataTheme)
      ensures Valid()
    {
      var now := if dataTheme == "dark" then "light" else "dark";
      dataTheme := now;
      saved := Some(now);
    }
  }
}
