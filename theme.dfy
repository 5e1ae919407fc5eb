/**
 * The light/dark switch: the chosen theme is kept under the "theme" key, shown
 * by the `dark-mode` class on the body, and mirrored by two checkboxes
 * (desktop and mobile), either of which may be missing from the page.
 */
module Theme {
  import opened Wrappers
  import opened Storage

  datatype Theme = Light | Dark

  const ThemeKey: string := "theme"

  /** The text stored for a theme. */
  function ThemeName(t: Theme): (s: string)
    ensures s == "light" || s == "dark"
  {
    match t
    case Light => "light"
    case Dark => "dark"
  }

  /** `initialTheme`: a stored "light" or "dark" wins; anything else, or
      nothing, defers to the operating system's preference. */
  function InitialTheme(saved: Option<string>, prefersDark: bool): (t: Theme)
    ensures saved == Some("light") ==> t == Light
    ensures saved == Some("dark") ==> t == Dark
    ensures saved != Some("light") && saved != Some("dark") ==> (t == Dark <==> prefersDark)
  {
    if saved == Some("light") then Light
    else if saved == Some("dark") then Dark
    else if prefersDark then Dark else Light
  }

  /** A stored theme is what the next page load starts with, whatever the
      operating system prefers. */
  lemma StoredThemeSurvivesReload(t: Theme, prefersDark: bool)
    ensures InitialTheme(Some(ThemeName(t)), prefersDark) == t
  {
  }

  class ThemeSwitch {
    const storage: LocalStorage
    /** Whether `#desktop-theme-toggle` and `#mobile-theme-toggle` exist. */
    const hasDesktopToggle: bool
    const hasMobileToggle: bool
    /** The body carries the `dark-mode` class. */
    var darkMode: bool
    var desktopChecked: bool
    var mobileChecked: bool

    constructor (storage: LocalStorage, hasDesktopToggle: bool, hasMobileToggle: bool,
                 darkMode: bool, desktopChecked: bool, mobileChecked: bool)
      ensures this.storage == storage
      ensures this.hasDesktopToggle == hasDesktopToggle && this.hasMobileToggle == hasMobileToggle
      ensures this.darkMode == darkMode
      ensures this.desktopChecked == desktopChecked && this.mobileChecked == mobileChecked
    {
      this.storage := storage;
      this.hasDesktopToggle := hasDesktopToggle;
      this.hasMobileToggle := hasMobileToggle;
      this.darkMode := darkMode;
      this.desktopChecked := desktopChecked;
      this.mobileChecked := mobileChecked;
    }

    /** Stored theme, body class and every checkbox present all say `t`. */
    ghost predicate InAgreement(t: Theme)
      reads this, storage
    {
      && ThemeKey in storage.items && storage.items[ThemeKey] == ThemeName(t)
      && darkMode == (t == Dark)
      && (hasDesktopToggle ==> desktopChecked == (t == Dark))
      && (hasMobileToggle ==> mobileChecked == (t == Dark))
    }

    /** `applyTheme`: the class is on exactly when the theme is dark, whatever
        it was before, so applying twice is applying once. */
    method ApplyTheme(t: Theme)
      modifies this`darkMode
      ensures darkMode == (t == Dark)
    {
      darkMode := t == Dark;
    }

    /** `storeTheme`: writes the theme's name under "theme". */
    method StoreTheme(t: Theme)
      modifies storage
      ensures storage.items == old(storage.items)[ThemeKey := ThemeName(t)]
    {
      storage.SetItem(ThemeKey, ThemeName(t));
    }

    /** `syncCheckboxes`: sets each checkbox that exists. */
    method SyncCheckboxes(isDark: bool)
      modifies this`desktopChecked, this`mobileChecked
      ensures desktopChecked == if hasDesktopToggle then isDark else old(desktopChecked)
      ensures mobileChecked == if hasMobileToggle then isDark else old(mobileChecked)
    {
      if hasDesktopToggle {
        desktopChecked := isDark;
      }
      if hasMobileToggle {
        mobileChecked := isDark;
      }
    }

    /** The first step of `setupTheme`: picks the initial theme from storage
        and the OS preference, then applies, syncs and stores it. */
    method SetupTheme(prefersDark: bool) returns (theme: Theme)
      modifies this, storage
      ensures theme == InitialTheme(if ThemeKey in old(storage.items) then Some(old(storage.items)[ThemeKey]) else None, prefersDark)
      ensures InAgreement(theme)
      ensures storage.items == old(storage.items)[ThemeKey := ThemeName(theme)]
    {
      var saved := storage.GetItem(ThemeKey);
      theme := InitialTheme(saved, prefersDark);
      ApplyTheme(theme);
      SyncCheckboxes(theme == Dark);
      StoreTheme(theme);
    }

    /** The `change` listener on either checkbox (registered only when that
        checkbox exists): the checkbox's own state picks the theme, which is
        then applied, stored and synced. */
    method OnToggleChange(fromDesktop: bool) returns (next: Theme)
      requires if fromDesktop then hasDesktopToggle else hasMobileToggle
      modifies this, storage
      ensures next == Dark <==> old(if fromDesktop then desktopChecked else mobileChecked)
      ensures InAgreement(next)
      ensures storage.items == old(storage.items)[ThemeKey := ThemeName(next)]
    {
      var checked := if fromDesktop then desktopChecked else mobileChecked;
      next := if checked then Dark else Light;
      ApplyTheme(next);
      StoreTheme(next);
      SyncCheckboxes(next == Dark);
    }

    /** A click on a checkbox: the browser flips it, then fires `change`. From
        a state in agreement, the switch ends in agreement on the other theme. */
    method Click(fromDesktop: bool) returns (next: Theme)
      requires if fromDesktop then hasDesktopToggle else hasMobileToggle
      modifies this, storage
      ensures old(InAgreement(Light)) ==> next == Dark
      ensures old(InAgreement(Dark)) ==> next == Light
      ensures InAgreement(next)
      ensures storage.items == old(storage.items)[ThemeKey := ThemeName(next)]
    {
      if fromDesktop {
        desktopChecked := !desktopChecked;
      } else {
        mobileChecked := !mobileChecked;
      }
      next := OnToggleChange(fromDesktop);
    }
  }
}
