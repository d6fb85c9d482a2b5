/**
 The light/dark theme preference: a persisted storage key `theme` (absent, or
 holding any string) and the `dark` class on the document root element.
 */
module Theme {

  import opened Optional

  const Dark: string := "dark"
  const Light: string := "light"

  /** The value `setInitialTheme` stores, given what the key held before. */
  function InitialTheme(prior: Option<string>): (r: string)
    ensures r == Dark || r == Light
    ensures r == Dark <==> prior == None || prior == Some(Dark)
  {
    if prior == Some(Dark) || prior == None then Dark else Light
  }

  /** The value `toggleTheme` stores, given what the key held before. */
  function ToggledTheme(prior: Option<string>): (r: string)
    ensures r == Dark || r == Light
    ensures r == Light <==> prior == Some(Dark)
  {
    if prior == Some(Dark) then Light else Dark
  }

  /** Initialising an already initialised preference keeps it. */
  lemma InitialThemeIdempotent(prior: Option<string>)
    ensures InitialTheme(Some(InitialTheme(prior))) == InitialTheme(prior)
  {
  }

  /** Toggling twice restores a stored "dark" or "light". */
  lemma ToggleTwiceRestores(prior: Option<string>)
    requires prior == Some(Dark) || prior == Some(Light)
    ensures Some(ToggledTheme(Some(ToggledTheme(prior)))) == prior
  {
  }

  /** An absent key or any other value does not come back: two toggles end at "light". */
  lemma ToggleTwiceFromOther(prior: Option<string>)
    requires prior != Some(Dark) && prior != Some(Light)
    ensures ToggledTheme(Some(ToggledTheme(prior))) == Light
  {
  }

  /** The preference as the page holds it: storage and the root element's class list. */
  class ThemePreference {
    /** `localStorage.theme`; `None` when the key is absent. */
    var stored: Option<string>
    /** Whether `document.documentElement.classList` contains "dark". */
    var darkClass: bool

    /** The class on the page agrees with a normalised stored value. */
    ghost predicate Valid()
      reads this
    {
      (stored == Some(Dark) || stored == Some(Light)) && (darkClass <==> stored == Some(Dark))
    }

    /** A page load: storage may hold anything left from earlier sessions. */
    constructor (persisted: Option<string>, classPresent: bool)
      ensures stored == persisted && darkClass == classPresent
    {
      stored := persisted;
      darkClass := classPresent;
    }

    /** `setInitialTheme`: normalise the key to "dark" or "light", the class with it. */
    method SetInitialTheme()
      modifies this
      ensures stored == Some(InitialTheme(old(stored)))
      ensures darkClass <==> stored == Some(Dark)
      ensures Valid()
    {
      if stored == Some(Dark) || stored == None {
        darkClass := true;
        stored := Some(Dark);
      } else {
        darkClass := false;
        stored := Some(Light);
      }
    }

    /** `toggleTheme`: "dark" becomes "light", anything else becomes "dark". */
    method ToggleTheme()
      modifies this
      ensures stored == Some(ToggledTheme(old(stored)))
      ensures darkClass <==> stored == Some(Dark)
      ensures Valid()
    {
      if stored == Some(Dark) {
        darkClass := false;
        stored := Some(Light);
      } else {
        darkClass := true;
        stored := Some(Dark);
      }
    }
  }

  /** Initialising twice leaves the same state as initialising once. */
  method InitialiseTwice(t: ThemePreference)
    modifies t
    ensures t.stored == Some(InitialTheme(old(t.stored))) && t.Valid()
  {
    t.SetInitialTheme();
    ghost var once := (t.stored, t.darkClass);
    t.SetInitialTheme();
    InitialThemeIdempotent(old(t.stored));
    assert (t.stored, t.darkClass) == once;
  }

  /** From any normalised state, two toggles give back both the key and the class. */
  method ToggleTwiceRestoresState(t: ThemePreference)
    requires t.Valid()
    modifies t
    ensures t.stored == old(t.stored) && t.darkClass == old(t.darkClass)
  {
    t.ToggleTheme();
    t.ToggleTheme();
    ToggleTwiceRestores(old(t.stored));
  }

  /** After initialisation, two toggles give back the initialised state. */
  method ToggleTwiceAfterInit(t: ThemePreference)
    modifies t
    ensures t.stored == Some(InitialTheme(old(t.stored))) && t.Valid()
  {
    t.SetInitialTheme();
    ghost var init := (t.stored, t.darkClass);
    t.ToggleTheme();
    t.ToggleTheme();
    assert (t.stored, t.darkClass) == init;
  }
}
