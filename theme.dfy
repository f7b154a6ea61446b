/** The theme hook (app/hooks/useTheme.ts) over the browser's key-value storage. */
module Theme {
  import opened Wrappers

  const Dark: string := "dark"
  const Light: string := "light"
  const ThemeKey: string := "theme"

  /** `toggleTheme`'s choice: "dark" becomes "light", anything else "dark". */
  function Toggled(theme: string): (r: string)
    ensures theme == Dark ==> r == Light
    ensures theme != Dark ==> r == Dark
  {
    if theme == Dark then Light else Dark
  }

  /** Two toggles restore "dark" and "light"; any other stored value ends as "light". */
  lemma ToggleTwice(theme: string)
    ensures theme == Dark || theme == Light ==> Toggled(Toggled(theme)) == theme
    ensures theme != Dark && theme != Light ==> Toggled(Toggled(theme)) == Light
  {
  }

  /** The browser's `localStorage`: string values under string keys. */
  class KeyValueStore {
    var entries: map<string, string>

    constructor (entries: map<string, string>)
      ensures this.entries == entries
    {
      this.entries := entries;
    }

    /** `getItem`: the value under `key`, or null. */
    function GetItem(key: string): (r: Option<string>)
      reads this
      ensures r.Some? <==> key in entries
      ensures r.Some? ==> r.value == entries[key]
    {
      if key in entries then Some(entries[key]) else None
    }

    method SetItem(key: string, value: string)
      modifies this
      ensures entries == old(entries)[key := value]
    {
      entries := entries[key := value];
    }
  }

  class ThemeHook {
    var theme: string

    constructor ()
      ensures theme == Dark
    {
      theme := Dark;
    }

    /** The mount effect: a stored non-empty value is adopted as it is, without checking it. */
    method LoadStored(store: KeyValueStore)
      modifies this
      ensures var v := store.GetItem(ThemeKey); v.Some? && v.value != [] ==> theme == v.value
      ensures var v := store.GetItem(ThemeKey); v.None? || v.value == [] ==> theme == old(theme)
    {
      var stored := store.GetItem(ThemeKey);
      if stored.Some? && stored.value != [] {
        theme := stored.value;
      }
    }

    /** `toggleTheme`: the theme flips and the new one is written under "theme". */
    method Toggle(store: KeyValueStore)
      modifies this, store
      ensures theme == Toggled(old(theme))
      ensures store.entries == old(store.entries)[ThemeKey := theme]
    {
      var newTheme := Toggled(theme);
      theme := newTheme;
      store.SetItem(ThemeKey, newTheme);
    }
  }

  /** Toggling twice from "dark" or "light" restores both the theme and what is stored. */
  method ToggleTwiceRestores(theme: string, entries: map<string, string>) returns (hook: ThemeHook, store: KeyValueStore)
    requires theme == Dark || theme == Light
    requires ThemeKey in entries && entries[ThemeKey] == theme
    ensures hook.theme == theme && store.entries == entries
  {
    store := new KeyValueStore(entries);
    hook := new ThemeHook();
    hook.LoadStored(store);
    hook.Toggle(store);
    hook.Toggle(store);
    ToggleTwice(theme);
    assert store.entries == entries[ThemeKey := theme];
  }
}
