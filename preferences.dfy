/** The preferences store: selected categories, theme, content-type filter
    and favorites-only flag, plus the snapshot written to browser storage
    under the key "preferences" and the page's dark-theme flag. */
module Preferences {
  import opened ContentModel
  import opened Sequences

  datatype ContentTypeFilter = All | OnlyNews | OnlyMovies | OnlySocial

  /** The filter value as the source spells it. */
  function FilterName(f: ContentTypeFilter): string
  {
    match f
    case All => "all"
    case OnlyNews => "news"
    case OnlyMovies => "movies"
    case OnlySocial => "social"
  }

  datatype PreferencesState = PreferencesState(
    categories: seq<ContentCategory>,
    darkMode: bool,
    contentTypeFilter: ContentTypeFilter,
    showFavoritesOnly: bool)

  /** The state every session starts from. */
  const InitialState := PreferencesState([Technology, Business], false, All, false)

  /** A stored snapshot as read back by `JSON.parse`: a field may be missing
      (or `null`) when the blob predates it or was written by something else. */
  datatype StoredPreferences = StoredPreferences(
    categories: Option<seq<ContentCategory>>,
    darkMode: Option<bool>,
    contentTypeFilter: Option<ContentTypeFilter>,
    showFavoritesOnly: Option<bool>)

  /** `JSON.stringify(state)`: every field present. */
  function SnapshotOf(s: PreferencesState): StoredPreferences
  {
    StoredPreferences(Some(s.categories), Some(s.darkMode), Some(s.contentTypeFilter), Some(s.showFavoritesOnly))
  }

  /** The category list after `toggleCategory(c)`: the first occurrence of a
      present category is spliced out; an absent one is pushed at the end. */
  function Toggled(categories: seq<ContentCategory>, c: ContentCategory): (r: seq<ContentCategory>)
    ensures c !in categories ==> r == categories + [c]
    ensures c in categories ==> |r| == |categories| - 1
    ensures c in categories ==> multiset(r) == multiset(categories) - multiset{c}
    ensures c in categories ==>
      exists i :: 0 <= i < |categories| && categories[i] == c &&
        c !in categories[..i] && r == categories[..i] + categories[i + 1..]
  {
    var i := IndexOf(categories, c);
    if i > -1 then
      assert categories == categories[..i] + [categories[i]] + categories[i + 1..];
      categories[..i] + categories[i + 1..]
    else categories + [c]
  }

  /** Toggling an absent category twice restores the list exactly. */
  lemma ToggleTwiceAbsent(categories: seq<ContentCategory>, c: ContentCategory)
    requires c !in categories
    ensures Toggled(Toggled(categories, c), c) == categories
  {
    var once := categories + [c];
    assert IndexOf(once, c) == |categories| by {
      assert once[..|categories|] == categories;
    }
    assert once[..|categories|] == categories;
  }

  /** Toggling a category present once twice keeps the same members but moves
      the category to the end; with duplicates it drops two occurrences. */
  lemma ToggleTwicePresent(categories: seq<ContentCategory>, c: ContentCategory)
    requires c in categories
    ensures multiset(categories)[c] == 1 ==>
      multiset(Toggled(Toggled(categories, c), c)) == multiset(categories)
      && Toggled(Toggled(categories, c), c) == Toggled(categories, c) + [c]
    ensures multiset(categories)[c] >= 2 ==>
      multiset(Toggled(Toggled(categories, c), c))[c] == multiset(categories)[c] - 2
  {
    var once := Toggled(categories, c);
    if multiset(categories)[c] == 1 {
      assert multiset(once)[c] == 0;
      assert c !in once;
    } else {
      assert multiset(once)[c] >= 1;
      assert c in once;
    }
  }

  /** `hydrateFromStorage` on the state `current`: each stored field is merged
      with `||`. A stored list replaces the categories even when it is empty;
      a stored flag can turn a flag on but never off. */
  function Merge(current: PreferencesState, stored: StoredPreferences): (r: PreferencesState)
    ensures stored.categories.Some? ==> r.categories == stored.categories.value
    ensures stored.categories.None? ==> r.categories == current.categories
    ensures r.darkMode <==> stored.darkMode == Some(true) || current.darkMode
    ensures stored.contentTypeFilter.Some? ==> r.contentTypeFilter == stored.contentTypeFilter.value
    ensures stored.contentTypeFilter.None? ==> r.contentTypeFilter == current.contentTypeFilter
    ensures r.showFavoritesOnly <==> stored.showFavoritesOnly == Some(true) || current.showFavoritesOnly
  {
    PreferencesState(
      if stored.categories.Some? then stored.categories.value else current.categories,
      (stored.darkMode.Some? && stored.darkMode.value) || current.darkMode,
      if stored.contentTypeFilter.Some? then stored.contentTypeFilter.value else current.contentTypeFilter,
      (stored.showFavoritesOnly.Some? && stored.showFavoritesOnly.value) || current.showFavoritesOnly)
  }

  /** A snapshot written by the store and hydrated into a fresh store gives
      back the state that was written. */
  lemma HydrateRestoresSnapshotIntoFreshStore(s: PreferencesState)
    ensures Merge(InitialState, SnapshotOf(s)) == s
  {
  }

  /** Hydrating never clears a flag that is already on, so a stored `false`
      cannot undo a current `true`. */
  lemma HydrateCannotClearFlags(current: PreferencesState, stored: StoredPreferences)
    ensures current.darkMode ==> Merge(current, stored).darkMode
    ensures current.showFavoritesOnly ==> Merge(current, stored).showFavoritesOnly
    ensures current.darkMode && stored == SnapshotOf(current.(darkMode := false)) ==>
      Merge(current, stored) != current.(darkMode := false)
  {
  }

  /** Hydrating twice from the same blob is the same as hydrating once. */
  lemma HydrateIsIdempotent(current: PreferencesState, stored: StoredPreferences)
    ensures Merge(Merge(current, stored), stored) == Merge(current, stored)
  {
  }

  /** The preferences store. Only in a browser are storage and the page's
      theme class touched. */
  class PreferencesStore {
    var categories: seq<ContentCategory>
    var darkMode: bool
    var contentTypeFilter: ContentTypeFilter
    var showFavoritesOnly: bool
    /** The blob stored under "preferences". */
    var persisted: Option<StoredPreferences>
    /** Whether the page root carries the "dark" class. */
    var themeDark: bool
    const inBrowser: bool

    function State(): PreferencesState
      reads this
    {
      PreferencesState(categories, darkMode, contentTypeFilter, showFavoritesOnly)
    }

    /** Every session starts from the initial state, whatever storage holds. */
    constructor (inBrowser: bool, persisted: Option<StoredPreferences>, themeDark: bool)
      ensures State() == InitialState
      ensures this.inBrowser == inBrowser && this.persisted == persisted && this.themeDark == themeDark
    {
      categories := [Technology, Business];
      darkMode := false;
      contentTypeFilter := All;
      showFavoritesOnly := false;
      this.persisted := persisted;
      this.themeDark := themeDark;
      this.inBrowser := inBrowser;
    }

    /** Writes the snapshot of the current state, in a browser. */
    method Persist()
      modifies this`persisted
      ensures persisted == if inBrowser then Some(SnapshotOf(State())) else old(persisted)
    {
      if inBrowser {
        persisted := Some(SnapshotOf(State()));
      }
    }

    /** `setCategories`: replaces the list and nothing else. */
    method SetCategories(list: seq<ContentCategory>)
      modifies this
      ensures State() == old(State()).(categories := list)
      ensures persisted == if inBrowser then Some(SnapshotOf(State())) else old(persisted)
      ensures themeDark == old(themeDark)
    {
      categories := list;
      Persist();
    }

    /** `toggleCategory`: splices out the first occurrence or pushes at the end. */
    method ToggleCategory(c: ContentCategory)
      modifies this
      ensures State() == old(State()).(categories := Toggled(old(categories), c))
      ensures persisted == if inBrowser then Some(SnapshotOf(State())) else old(persisted)
      ensures themeDark == old(themeDark)
    {
      var index := IndexOf(categories, c);
      if index > -1 {
        categories := categories[..index] + categories[index + 1..];
      } else {
        categories := categories + [c];
      }
      Persist();
    }

    /** `toggleDarkMode`: flips the flag; the theme class follows it. */
    method ToggleDarkMode()
      modifies this
      ensures State() == old(State()).(darkMode := !old(darkMode))
      ensures persisted == if inBrowser then Some(SnapshotOf(State())) else old(persisted)
      ensures themeDark == if inBrowser then darkMode else old(themeDark)
    {
      darkMode := !darkMode;
      Persist();
      if inBrowser {
        themeDark := darkMode;
      }
    }

    /** `setDarkMode`: sets the flag; the theme class follows it. */
    method SetDarkMode(on: bool)
      modifies this
      ensures State() == old(State()).(darkMode := on)
      ensures persisted == if inBrowser then Some(SnapshotOf(State())) else old(persisted)
      ensures themeDark == if inBrowser then on else old(themeDark)
    {
      darkMode := on;
      Persist();
      if inBrowser {
        themeDark := darkMode;
      }
    }

    /** `setContentTypeFilter`: replaces the filter and nothing else. */
    method SetContentTypeFilter(f: ContentTypeFilter)
      modifies this
      ensures State() == old(State()).(contentTypeFilter := f)
      ensures persisted == if inBrowser then Some(SnapshotOf(State())) else old(persisted)
      ensures themeDark == old(themeDark)
    {
      contentTypeFilter := f;
      Persist();
    }

    /** `toggleFavoritesOnly`: flips the flag. */
    method ToggleFavoritesOnly()
      modifies this
      ensures State() == old(State()).(showFavoritesOnly := !old(showFavoritesOnly))
      ensures persisted == if inBrowser then Some(SnapshotOf(State())) else old(persisted)
      ensures themeDark == old(themeDark)
    {
      showFavoritesOnly := !showFavoritesOnly;
      Persist();
    }

    /** `hydrateFromStorage`: merges a stored blob into the state and sets the
        theme class; without a blob (or outside a browser) nothing changes.
        Nothing is written. */
    method HydrateFromStorage()
      modifies this
      ensures State() == if inBrowser && old(persisted).Some? then Merge(old(State()), old(persisted).value) else old(State())
      ensures themeDark == if inBrowser && old(persisted).Some? then darkMode else old(themeDark)
      ensures persisted == old(persisted)
    {
      if inBrowser && persisted.Some? {
        var stored := persisted.value;
        categories := if stored.categories.Some? then stored.categories.value else categories;
        darkMode := (stored.darkMode.Some? && stored.darkMode.value) || darkMode;
        contentTypeFilter := if stored.contentTypeFilter.Some? then stored.contentTypeFilter.value else contentTypeFilter;
        showFavoritesOnly := (stored.showFavoritesOnly.Some? && stored.showFavoritesOnly.value) || showFavoritesOnly;
        themeDark := darkMode;
      }
    }
  }

  /** Toggling dark mode twice restores the flag, and so does toggling
      favorites-only twice. */
  method ToggleTwiceRestoresFlags(store: PreferencesStore)
    modifies store
    ensures store.State() == old(store.State())
  {
    store.ToggleDarkMode();
    store.ToggleDarkMode();
    store.ToggleFavoritesOnly();
    store.ToggleFavoritesOnly();
  }
}
