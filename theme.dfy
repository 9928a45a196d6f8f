/** The theme container (src/stores/themeStore.ts): a tri-state preference and the single
    `light`/`dark` class it puts on the document root. The root's class list and the
    `prefers-color-scheme: dark` media query are inputs: a `DocumentRoot` object and a flag. */
module ThemeStore {
  import opened Types

  const LightClass := "light"
  const DarkClass := "dark"

  /** The class name of a concrete theme. */
  function ClassOf(t: Theme): string
    requires t != System
  {
    if t == Light then LightClass else DarkClass
  }

  /** `toggleTheme`'s choice: light becomes dark, anything else becomes light. */
  function Toggled(t: Theme): (r: Theme)
    ensures r != System
    ensures t == Light ==> r == Dark
    ensures t != Light ==> r == Light
  {
    if t == Light then Dark else Light
  }

  /** The concrete theme `applyTheme` shows: the theme itself, or for `system` the
      preference the media query reports. */
  function Resolved(t: Theme, prefersDark: bool): (r: Theme)
    ensures r != System
    ensures t != System ==> r == t
    ensures t == System ==> (r == Dark <==> prefersDark)
  {
    if t == System then (if prefersDark then Dark else Light) else t
  }

  /** The root's classes after `applyTheme`: both theme classes removed, then the resolved
      one added. */
  function Applied(classes: set<string>, t: Theme, prefersDark: bool): (r: set<string>)
    ensures (LightClass in r) != (DarkClass in r)
    ensures ClassOf(Resolved(t, prefersDark)) in r
    ensures forall c :: c != LightClass && c != DarkClass ==> (c in r <==> c in classes)
  {
    (classes - {LightClass, DarkClass}) + {ClassOf(Resolved(t, prefersDark))}
  }

  /** Toggling twice from a concrete theme gives it back; from `system` it lands on dark. */
  lemma ToggleTwice(t: Theme)
    ensures t != System ==> Toggled(Toggled(t)) == t
    ensures t == System ==> Toggled(Toggled(t)) == Dark
  {
  }

  /** Applying is idempotent, and only the latest theme matters. */
  lemma ApplyIdempotent(classes: set<string>, t: Theme, u: Theme, prefersDark: bool)
    ensures Applied(Applied(classes, t, prefersDark), u, prefersDark) == Applied(classes, u, prefersDark)
  {
  }

  /** The document element's class list. */
  class DocumentRoot {
    var classes: set<string>

    constructor (initial: set<string>)
      ensures classes == initial
    {
      classes := initial;
    }
  }

  /** The zustand store; persistence and the rehydration callback are not modelled. */
  class Store {
    var theme: Theme

    constructor ()
      ensures theme == System
    {
      theme := System;
    }

    /** `applyTheme`: remove both classes, then add the resolved one. */
    method ApplyTheme(root: DocumentRoot, prefersDark: bool)
      modifies root
      ensures root.classes == Applied(old(root.classes), theme, prefersDark)
    {
      root.classes := root.classes - {LightClass, DarkClass};
      if theme == System {
        var systemTheme := if prefersDark then DarkClass else LightClass;
        root.classes := root.classes + {systemTheme};
      } else {
        root.classes := root.classes + {ClassOf(theme)};
      }
    }

    /** `setTheme`: store exactly `t`, then apply it. */
    method SetTheme(t: Theme, root: DocumentRoot, prefersDark: bool)
      modifies this, root
      ensures theme == t
      ensures root.classes == Applied(old(root.classes), t, prefersDark)
    {
      theme := t;
      ApplyTheme(root, prefersDark);
    }

    /** `toggleTheme`: store the toggled theme, then apply it. */
    method ToggleTheme(root: DocumentRoot, prefersDark: bool)
      modifies this, root
      ensures theme == Toggled(old(theme))
      ensures root.classes == Applied(old(root.classes), Toggled(old(theme)), prefersDark)
    {
      theme := if theme == Light then Dark else Light;
      ApplyTheme(root, prefersDark);
    }

    /** The `prefers-color-scheme` change listener registered at module load: it re-applies
        the stored theme with the new preference and leaves the theme alone. */
    method OnPreferenceChange(root: DocumentRoot, prefersDark: bool)
      modifies root
      ensures root.classes == Applied(old(root.classes), theme, prefersDark)
    {
      ApplyTheme(root, prefersDark);
    }
  }
}
