/**
 * MainActivity: the set of favourite suggestions, the star button that shows
 * membership, persistence of the set, the favourites dialog's empty guard, and
 * the settings dialog's mapping between radio buttons and theme names.
 */
module MainScreen {
  import opened Preferences
  import opened Themes
  import opened Wrappers

  /** The text shown before the first suggestion; it cannot become a favourite. */
  const PLACEHOLDER := "Öneri için butona tıkla!"

  /** `toggleFavorite` returns at once on the empty text and on the placeholder. */
  predicate Toggleable(suggestion: string) {
    suggestion != "" && suggestion != PLACEHOLDER
  }

  /** The favourites after a toggle: membership of the suggestion flips, if it may be toggled. */
  function Toggled(favorites: set<string>, suggestion: string): (r: set<string>)
    ensures !Toggleable(suggestion) ==> r == favorites
    ensures Toggleable(suggestion) ==> (suggestion in r <==> suggestion !in favorites)
    ensures forall x :: x != suggestion ==> (x in r <==> x in favorites)
  {
    if !Toggleable(suggestion) then favorites
    else if suggestion in favorites then favorites - {suggestion}
    else favorites + {suggestion}
  }

  /** Toggling the same suggestion twice restores the set. */
  lemma ToggleTwice(favorites: set<string>, suggestion: string)
    ensures Toggled(Toggled(favorites, suggestion), suggestion) == favorites
  {
  }

  /** `getStringSet("favorites", null)`: the stored set, none when nothing is stored. */
  function StoredFavorites(entries: map<string, Stored>): (r: Option<set<string>>)
    requires FAVORITES_KEY in entries ==> entries[FAVORITES_KEY].TextSet?
    ensures r.None? <==> FAVORITES_KEY !in entries
    ensures r.Some? ==> entries[FAVORITES_KEY] == TextSet(r.value)
  {
    if FAVORITES_KEY in entries then Some(entries[FAVORITES_KEY].items) else None
  }

  /** What `saveFavorites` writes, `loadFavorites` reads back. */
  lemma SaveLoadFavorites(entries: map<string, Stored>, favorites: set<string>)
    ensures StoredFavorites(entries[FAVORITES_KEY := TextSet(favorites)]) == Some(favorites)
  {
  }

  /** The radio buttons of the settings dialog; `Unchecked` is any other id, such as none checked. */
  datatype RadioId = RadioSystem | RadioLight | RadioDark | RadioCustom | Unchecked

  /** The theme the checked radio button selects; anything else selects "system". */
  function SelectedTheme(id: RadioId): (name: string)
    ensures name == SYSTEM || name == LIGHT || name == DARK || name == CUSTOM
    ensures id == RadioSystem ==> name == SYSTEM
    ensures id == RadioLight ==> name == LIGHT
    ensures id == RadioDark ==> name == DARK
    ensures id == RadioCustom ==> name == CUSTOM
    ensures id.Unchecked? ==> name == SYSTEM
  {
    match id
    case RadioSystem => SYSTEM
    case RadioLight => LIGHT
    case RadioDark => DARK
    case RadioCustom => CUSTOM
    case Unchecked => SYSTEM
  }

  /** The radio button the dialog checks on opening for the current theme; none for an unknown name. */
  function Preselected(theme: string): (r: Option<RadioId>)
    ensures r.Some? <==> theme == SYSTEM || theme == LIGHT || theme == DARK || theme == CUSTOM
    ensures r.Some? ==> !r.value.Unchecked?
  {
    if theme == SYSTEM then Some(RadioSystem)
    else if theme == LIGHT then Some(RadioLight)
    else if theme == DARK then Some(RadioDark)
    else if theme == CUSTOM then Some(RadioCustom)
    else None
  }

  /**
   * The two mappings of the settings dialog are inverse: a known theme is
   * preselected on the button that selects it again, and every button but
   * `Unchecked` is preselected for the theme it selects.
   */
  lemma PreselectRoundTrip(theme: string, id: RadioId)
    ensures Preselected(theme).Some? ==> SelectedTheme(Preselected(theme).value) == theme
    ensures !id.Unchecked? ==> Preselected(SelectedTheme(id)) == Some(id)
  {
  }

  class MainActivity {
    var favorites: set<string>
    const themeManager: ThemeManager

    constructor ()
      ensures favorites == {} && fresh(themeManager)
      ensures themeManager.currentTheme == SYSTEM && !themeManager.isDarkMode
    {
      favorites := {};
      themeManager := new ThemeManager();
    }

    /** `toggleFavorite`: flips the suggestion's membership and saves; ignored text changes nothing. */
    method ToggleFavorite(suggestion: string, store: Store)
      modifies this`favorites, store
      ensures favorites == Toggled(old(favorites), suggestion)
      ensures !Toggleable(suggestion) ==> store.entries == old(store.entries)
      ensures Toggleable(suggestion) ==> store.entries == old(store.entries)[FAVORITES_KEY := TextSet(favorites)]
    {
      if suggestion == "" || suggestion == PLACEHOLDER {
        return;
      }
      if suggestion in favorites {
        favorites := favorites - {suggestion};
      } else {
        favorites := favorites + {suggestion};
      }
      SaveFavorites(store);
    }

    /** `updateFavoriteButton`: the star is on exactly for a favourite. */
    function StarOn(suggestion: string): (on: bool)
      reads this
      ensures on <==> suggestion in favorites
    {
      suggestion in favorites
    }

    /** `loadFavorites`: replaces the set by the stored one, or empties it when none is stored. */
    method LoadFavorites(store: Store)
      requires FAVORITES_KEY in store.entries ==> store.entries[FAVORITES_KEY].TextSet?
      modifies this`favorites
      ensures StoredFavorites(store.entries).None? ==> favorites == {}
      ensures StoredFavorites(store.entries).Some? ==> favorites == StoredFavorites(store.entries).value
    {
      favorites := {};
      if FAVORITES_KEY in store.entries {
        favorites := favorites + store.entries[FAVORITES_KEY].items;
      }
    }

    /** `saveFavorites`: stores the set under its key and nothing else. */
    method SaveFavorites(store: Store)
      modifies store
      ensures store.entries == old(store.entries)[FAVORITES_KEY := TextSet(favorites)]
    {
      store.entries := store.entries[FAVORITES_KEY := TextSet(favorites)];
    }

    /**
     * `showFavoritesDialog`: no dialog for an empty set; otherwise the list it
     * shows holds every favourite exactly once, in the set's iteration order.
     */
    method ShowFavoritesDialog() returns (shown: bool, items: seq<string>)
      ensures shown <==> favorites != {}
      ensures !shown ==> items == []
      ensures forall x :: x in items <==> x in favorites
      ensures |items| == |favorites|
      ensures forall i, j :: 0 <= i < j < |items| ==> items[i] != items[j]
    {
      if favorites == {} {
        return false, [];
      }
      items := [];
      var rest := favorites;
      while rest != {}
        invariant rest <= favorites
        invariant forall x :: x in items <==> x in favorites && x !in rest
        invariant |items| + |rest| == |favorites|
        invariant forall i, j :: 0 <= i < j < |items| ==> items[i] != items[j]
        decreases rest
      {
        var x :| x in rest;
        items := items + [x];
        rest := rest - {x};
      }
      shown := true;
    }

    /**
     * The positive button of the settings dialog: the theme is only set, and so
     * saved, when the selection differs from the current theme.
     */
    method ConfirmSettings(selected: RadioId, store: Store, hour: int)
      requires IsHour(hour)
      modifies themeManager, store
      ensures SelectedTheme(selected) == old(themeManager.currentTheme) ==>
                themeManager.State() == old(themeManager.State()) && store.entries == old(store.entries)
      ensures SelectedTheme(selected) != old(themeManager.currentTheme) ==>
                && themeManager.State() == Applied(old(themeManager.State()), SelectedTheme(selected), hour)
                && store.entries == Saved(old(store.entries), themeManager.State())
    {
      var selectedTheme := SelectedTheme(selected);
      if selectedTheme != themeManager.currentTheme {
        themeManager.SetTheme(selectedTheme, store, hour);
      }
    }
  }
}
