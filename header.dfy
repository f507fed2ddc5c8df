/** The header's theme button: the three-step theme cycle and the dark-mode
    decision that picks the Moon or the Sun icon. */
module Header {
  import opened Store

  /** The theme `cycleTheme` moves to: light, then dark, then system, then light again. */
  function NextTheme(t: Theme): (r: Theme)
    ensures r != t
    ensures t == Light ==> r == Dark
    ensures t == Dark ==> r == System
    ensures t == System ==> r == Light
  {
    if t == Light then Dark else if t == Dark then System else Light
  }

  /** Three presses of the button return to the theme one started from. */
  lemma NextThemeCycle(t: Theme)
    ensures NextTheme(NextTheme(NextTheme(t))) == t
    ensures NextTheme(NextTheme(t)) != t
  {
  }

  /** `isDark`: only once mounted; `'dark'` always, `'system'` when the browser prefers
      dark (`prefersDark` is false where there is no `window`). */
  function IsDark(mounted: bool, theme: Theme, prefersDark: bool): (b: bool)
    ensures !mounted ==> !b
    ensures mounted ==> (b <==> theme == Dark || (theme == System && prefersDark))
    ensures theme == Light ==> !b
  {
    mounted && (theme == Dark || (theme == System && prefersDark))
  }

  /** The button shows the Moon exactly when `mounted && isDark`. */
  function ShowsMoon(mounted: bool, theme: Theme, prefersDark: bool): (moon: bool)
    ensures moon <==> IsDark(mounted, theme, prefersDark)
  {
    mounted && IsDark(mounted, theme, prefersDark)
  }

  /** The theme button's click handler: writes the next theme through `setTheme`. */
  method CycleTheme(store: PokedexStore)
    modifies store
    ensures store.Snapshot() == ThemeSet(old(store.Snapshot()), NextTheme(old(store.theme)))
  {
    store.SetTheme(NextTheme(store.theme));
  }
}
