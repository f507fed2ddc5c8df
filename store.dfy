/** The persisted preference store: favourites, search term, selected type,
    the settings and sound toggles and the colour theme.

    Every action of the store is a `set` call whose updater maps the current
    state to the fields it replaces; each such updater is a function on
    `State` below, and the class `PokedexStore` applies it to its fields. */
module Store {
  import opened Common

  datatype Theme = Light | Dark | System

  /** The data fields of the store (its actions are the functions below). */
  datatype State = State(
    favorites: seq<int>,
    searchTerm: string,
    selectedType: Option<string>,
    isSettingsOpen: bool,
    soundEnabled: bool,
    theme: Theme)

  /** The values the store starts with when nothing has been persisted. */
  const Initial := State([], "", None, false, true, System)

  /** `isFavorite(id)`: `favorites.includes(id)`. */
  predicate IsFavoriteIn(s: State, id: int) {
    id in s.favorites
  }

  /** `favorites.filter((fid) => fid !== id)`. */
  function Without(favorites: seq<int>, id: int): (r: seq<int>)
    ensures id !in r
    ensures forall x :: x in r <==> x in favorites && x != id
    ensures |r| <= |favorites|
  {
    if favorites == [] then []
    else if favorites[0] == id then Without(favorites[1..], id)
    else [favorites[0]] + Without(favorites[1..], id)
  }

  /** Removing keeps every other id, as often as it occurred, in its original order. */
  lemma {:induction false} WithoutKeepsOthers(favorites: seq<int>, id: int)
    ensures Subsequence(Without(favorites, id), favorites)
    ensures forall x :: multiset(Without(favorites, id))[x] == if x == id then 0 else multiset(favorites)[x]
    decreases |favorites|
  {
    if favorites != [] {
      WithoutKeepsOthers(favorites[1..], id);
      assert favorites == [favorites[0]] + favorites[1..];
    }
  }

  /** Removing an id that is absent changes nothing. */
  lemma {:induction false} WithoutAbsent(favorites: seq<int>, id: int)
    requires id !in favorites
    ensures Without(favorites, id) == favorites
    decreases |favorites|
  {
    if favorites != [] {
      WithoutAbsent(favorites[1..], id);
      assert favorites == [favorites[0]] + favorites[1..];
    }
  }

  /** Removing `id` after appending it is the same as removing it before. */
  lemma {:induction false} WithoutAppended(favorites: seq<int>, id: int)
    ensures Without(favorites + [id], id) == Without(favorites, id)
    decreases |favorites|
  {
    if favorites == [] {
      assert Without([id][1..], id) == [];
    } else {
      assert (favorites + [id])[1..] == favorites[1..] + [id];
      WithoutAppended(favorites[1..], id);
    }
  }

  /** `addFavorite(id)`: appends `id`, whether or not it is already a favourite. */
  function FavoriteAdded(s: State, id: int): (t: State)
    ensures |t.favorites| == |s.favorites| + 1 && t.favorites[|s.favorites|] == id
    ensures t.favorites[..|s.favorites|] == s.favorites
    ensures IsFavoriteIn(t, id)
    ensures t.(favorites := s.favorites) == s
  {
    s.(favorites := s.favorites + [id])
  }

  /** `removeFavorite(id)`: drops every occurrence of `id`. */
  function FavoriteRemoved(s: State, id: int): (t: State)
    ensures !IsFavoriteIn(t, id)
    ensures forall x :: x != id ==> (IsFavoriteIn(t, x) <==> IsFavoriteIn(s, x))
    ensures t.(favorites := s.favorites) == s
  {
    s.(favorites := Without(s.favorites, id))
  }

  /** Removing an id that is not a favourite leaves the state as it was. */
  lemma FavoriteRemovedAbsent(s: State, id: int)
    requires !IsFavoriteIn(s, id)
    ensures FavoriteRemoved(s, id) == s
  {
    WithoutAbsent(s.favorites, id);
  }

  /** `setSearchTerm(term)`. */
  function SearchTermSet(s: State, term: string): (t: State)
    ensures t.searchTerm == term && t.(searchTerm := s.searchTerm) == s
  {
    s.(searchTerm := term)
  }

  /** `setSelectedType(type)`. */
  function SelectedTypeSet(s: State, selected: Option<string>): (t: State)
    ensures t.selectedType == selected && t.(selectedType := s.selectedType) == s
  {
    s.(selectedType := selected)
  }

  /** `setTheme(theme)`. */
  function ThemeSet(s: State, theme: Theme): (t: State)
    ensures t.theme == theme && t.(theme := s.theme) == s
  {
    s.(theme := theme)
  }

  /** `toggleSettings()`. */
  function SettingsToggled(s: State): (t: State)
    ensures t.isSettingsOpen != s.isSettingsOpen
    ensures t.(isSettingsOpen := s.isSettingsOpen) == s
  {
    s.(isSettingsOpen := !s.isSettingsOpen)
  }

  /** `toggleSound()`. */
  function SoundToggled(s: State): (t: State)
    ensures t.soundEnabled != s.soundEnabled
    ensures t.(soundEnabled := s.soundEnabled) == s
  {
    s.(soundEnabled := !s.soundEnabled)
  }

  lemma TogglesAreInvolutions(s: State)
    ensures SettingsToggled(SettingsToggled(s)) == s
    ensures SoundToggled(SoundToggled(s)) == s
  {
  }

  /** What `partialize` hands to storage: the state without `searchTerm`. */
  datatype Persisted = Persisted(
    favorites: seq<int>,
    selectedType: Option<string>,
    isSettingsOpen: bool,
    soundEnabled: bool,
    theme: Theme)

  /** `partialize`: everything but `searchTerm`. */
  function Partialize(s: State): (p: Persisted)
  {
    Persisted(s.favorites, s.selectedType, s.isSettingsOpen, s.soundEnabled, s.theme)
  }

  /** The snapshot depends on every field except `searchTerm`. */
  lemma PartializeDropsOnlySearchTerm(s: State, t: State)
    ensures Partialize(s) == Partialize(t) <==> s.(searchTerm := t.searchTerm) == t
  {
  }

  /** Rehydration: the persisted fields are merged over the current state. */
  function Merge(current: State, p: Persisted): (s: State)
    ensures Partialize(s) == p
    ensures s.searchTerm == current.searchTerm
  {
    State(p.favorites, current.searchTerm, p.selectedType, p.isSettingsOpen, p.soundEnabled, p.theme)
  }

  /** A restart restores every persisted field and starts with an empty search term. */
  lemma RestartRestores(s: State)
    ensures Merge(Initial, Partialize(s)) == s.(searchTerm := "")
  {
  }

  /** The running store: one field per data field, one method per action. */
  class PokedexStore {
    var favorites: seq<int>
    var searchTerm: string
    var selectedType: Option<string>
    var isSettingsOpen: bool
    var soundEnabled: bool
    var theme: Theme

    function Snapshot(): (s: State)
      reads this
    {
      State(favorites, searchTerm, selectedType, isSettingsOpen, soundEnabled, theme)
    }

    /** A fresh store with nothing persisted. */
    constructor ()
      ensures Snapshot() == Initial
    {
      favorites, searchTerm, selectedType := [], "", None;
      isSettingsOpen, soundEnabled, theme := false, true, System;
    }

    /** A store rehydrated from a persisted snapshot. */
    constructor Rehydrated(p: Persisted)
      ensures Snapshot() == Merge(Initial, p)
    {
      favorites, searchTerm, selectedType := p.favorites, "", p.selectedType;
      isSettingsOpen, soundEnabled, theme := p.isSettingsOpen, p.soundEnabled, p.theme;
    }

    method AddFavorite(id: int)
      modifies this
      ensures Snapshot() == FavoriteAdded(old(Snapshot()), id)
      ensures favorites == old(favorites) + [id]
    {
      favorites := favorites + [id];
    }

    method RemoveFavorite(id: int)
      modifies this
      ensures Snapshot() == FavoriteRemoved(old(Snapshot()), id)
      ensures favorites == Without(old(favorites), id)
    {
      favorites := Without(favorites, id);
    }

    method IsFavorite(id: int) returns (b: bool)
      ensures b <==> IsFavoriteIn(Snapshot(), id)
    {
      b := id in favorites;
    }

    method SetSearchTerm(term: string)
      modifies this
      ensures Snapshot() == SearchTermSet(old(Snapshot()), term)
    {
      searchTerm := term;
    }

    method SetSelectedType(selected: Option<string>)
      modifies this
      ensures Snapshot() == SelectedTypeSet(old(Snapshot()), selected)
    {
      selectedType := selected;
    }

    method SetTheme(t: Theme)
      modifies this
      ensures Snapshot() == ThemeSet(old(Snapshot()), t)
    {
      theme := t;
    }

    method ToggleSettings()
      modifies this
      ensures Snapshot() == SettingsToggled(old(Snapshot()))
    {
      isSettingsOpen := !isSettingsOpen;
    }

    method ToggleSound()
      modifies this
      ensures Snapshot() == SoundToggled(old(Snapshot()))
    {
      soundEnabled := !soundEnabled;
    }

    /** The blob the persistence layer writes after a change. */
    method Persist() returns (p: Persisted)
      ensures p == Partialize(Snapshot())
    {
      p := Persisted(favorites, selectedType, isSettingsOpen, soundEnabled, theme);
    }
  }
}
