/** The favorites store: the saved items, newest first, plus the snapshot the
    store writes to browser storage under the key "favorites". */
module Favorites {
  import opened ContentModel
  import opened Sequences

  /** `items.some(item => item.id === id)`. */
  function HasId(items: seq<Content>, id: string): (r: bool)
    ensures r <==> exists i :: 0 <= i < |items| && items[i].id == id
  {
    |items| > 0 && (items[0].id == id || HasId(items[1..], id))
  }

  /** No two items share an id. */
  ghost predicate UniqueIds(items: seq<Content>)
  {
    forall i, j :: 0 <= i < j < |items| ==> items[i].id != items[j].id
  }

  /** The list after `addFavorite(c)`: `c` in front unless its id is already saved. */
  function WithFavorite(items: seq<Content>, c: Content): (r: seq<Content>)
    ensures HasId(r, c.id)
    ensures forall i :: 0 <= i < |items| ==> items[i] in r
    ensures HasId(items, c.id) ==> r == items
    ensures !HasId(items, c.id) ==> r[0] == c && r[1..] == items
  {
    if HasId(items, c.id) then items else [c] + items
  }

  /** The list after `removeFavorite(id)`: every item with that id is gone. */
  function WithoutId(items: seq<Content>, id: string): (r: seq<Content>)
    ensures !HasId(r, id)
    ensures forall x: Content :: x.id != id ==> multiset(r)[x] == multiset(items)[x]
    ensures IsSubsequence(r, items)
  {
    var keep := (x: Content) => x.id != id;
    FilterCounts(items, keep);
    Filter(items, keep)
  }

  /** What the store writes: `JSON.stringify(state)`, whose `items` may be
      missing when the stored blob was written by something else. */
  datatype StoredFavorites = StoredFavorites(items: Option<seq<Content>>)

  /** `parsed.items || []`: a stored list, even an empty one, replaces the items. */
  function HydratedItems(stored: StoredFavorites): seq<Content>
  {
    if stored.items.Some? then stored.items.value else []
  }

  /** Adding an item whose id is absent puts it at the head and keeps the
      old list behind it; adding a present id changes nothing. */
  lemma AddPlacesAtHead(items: seq<Content>, c: Content)
    ensures !HasId(items, c.id) ==> WithFavorite(items, c)[0] == c && WithFavorite(items, c)[1..] == items
    ensures HasId(items, c.id) ==> WithFavorite(items, c) == items
    ensures HasId(WithFavorite(items, c), c.id)
  {
    if !HasId(items, c.id) {
      assert WithFavorite(items, c)[0].id == c.id;
    }
  }

  /** Adding the same item twice is the same as adding it once. */
  lemma AddIsIdempotent(items: seq<Content>, c: Content)
    ensures WithFavorite(WithFavorite(items, c), c) == WithFavorite(items, c)
    ensures |WithFavorite(items, c)| <= |items| + 1
  {
    AddPlacesAtHead(items, c);
  }

  /** Adding keeps ids pairwise distinct. */
  lemma AddPreservesUniqueIds(items: seq<Content>, c: Content)
    requires UniqueIds(items)
    ensures UniqueIds(WithFavorite(items, c))
  {
    if !HasId(items, c.id) {
      var r := WithFavorite(items, c);
      forall i, j | 0 <= i < j < |r| ensures r[i].id != r[j].id {
        if i == 0 {
          assert r[j] == items[j - 1];
        } else {
          assert r[i] == items[i - 1] && r[j] == items[j - 1];
        }
      }
    }
  }

  /** Keeping an order-preserving subsequence keeps ids pairwise distinct. */
  lemma {:induction false} SubsequenceKeepsUniqueIds(a: seq<Content>, b: seq<Content>)
    requires IsSubsequence(a, b) && UniqueIds(b)
    ensures UniqueIds(a)
    ensures forall i :: 0 <= i < |a| ==> a[i] in b
    decreases |b|
  {
    if a != [] {
      assert b != [];
      if a[0] == b[0] && IsSubsequence(a[1..], b[1..]) {
        SubsequenceKeepsUniqueIds(a[1..], b[1..]);
        forall i, j | 0 <= i < j < |a| ensures a[i].id != a[j].id {
          assert a[j] == a[1..][j - 1];
          var k :| 0 <= k < |b[1..]| && b[1..][k] == a[j];
          assert b[k + 1] == a[j];
          if i != 0 {
            assert a[i] == a[1..][i - 1];
          }
        }
        forall i | 0 <= i < |a| ensures a[i] in b {
          if i > 0 {
            assert a[i] == a[1..][i - 1];
          }
        }
      } else {
        SubsequenceKeepsUniqueIds(a, b[1..]);
      }
    }
  }

  /** Removing keeps ids pairwise distinct. */
  lemma RemovePreservesUniqueIds(items: seq<Content>, id: string)
    requires UniqueIds(items)
    ensures UniqueIds(WithoutId(items, id))
  {
    SubsequenceKeepsUniqueIds(WithoutId(items, id), items);
  }

  /** Removing an id nobody has changes nothing. */
  lemma RemoveAbsentIsIdentity(items: seq<Content>, id: string)
    requires !HasId(items, id)
    ensures WithoutId(items, id) == items
  {
    FilterKeepsAll(items, (x: Content) => x.id != id);
  }

  /** Removing what was just added restores the list, when the id was new. */
  lemma RemoveUndoesAdd(items: seq<Content>, c: Content)
    requires !HasId(items, c.id)
    ensures WithoutId(WithFavorite(items, c), c.id) == items
  {
    assert [c] + items == WithFavorite(items, c);
    assert ([c] + items)[1..] == items;
    RemoveAbsentIsIdentity(items, c.id);
  }

  /** The favorites store. `inBrowser` says whether a window exists; only
      then is storage read or written. `persisted` is the blob stored under
      "favorites". */
  class FavoritesStore {
    var items: seq<Content>
    var persisted: Option<StoredFavorites>
    const inBrowser: bool

    /** The initial state is the empty list, whatever storage holds. */
    constructor (inBrowser: bool, persisted: Option<StoredFavorites>)
      ensures items == [] && this.inBrowser == inBrowser && this.persisted == persisted
    {
      this.items := [];
      this.persisted := persisted;
      this.inBrowser := inBrowser;
    }

    /** The snapshot of the current state. */
    function Snapshot(): StoredFavorites
      reads this
    {
      StoredFavorites(Some(items))
    }

    /** `addFavorite`: a new id goes to the head and the snapshot is written;
        an id already saved is a no-op that writes nothing. */
    method AddFavorite(c: Content)
      modifies this
      ensures items == WithFavorite(old(items), c)
      ensures persisted == if inBrowser && !HasId(old(items), c.id) then Some(Snapshot()) else old(persisted)
      ensures UniqueIds(old(items)) ==> UniqueIds(items)
    {
      if UniqueIds(items) {
        AddPreservesUniqueIds(items, c);
      }
      var present := HasId(items, c.id);
      if !present {
        items := [c] + items;
        if inBrowser {
          persisted := Some(Snapshot());
        }
      }
    }

    /** `removeFavorite`: every item with the id is dropped, the others keep
        their order, and the snapshot is written. */
    method RemoveFavorite(id: string)
      modifies this
      ensures items == WithoutId(old(items), id)
      ensures persisted == if inBrowser then Some(Snapshot()) else old(persisted)
      ensures UniqueIds(old(items)) ==> UniqueIds(items)
    {
      if UniqueIds(items) {
        RemovePreservesUniqueIds(items, id);
      }
      items := WithoutId(items, id);
      if inBrowser {
        persisted := Some(Snapshot());
      }
    }

    /** `clearFavorites`: the list becomes empty and the snapshot is written. */
    method ClearFavorites()
      modifies this
      ensures items == []
      ensures persisted == if inBrowser then Some(Snapshot()) else old(persisted)
    {
      items := [];
      if inBrowser {
        persisted := Some(Snapshot());
      }
    }

    /** `hydrateFromStorage`: with a stored blob the items become its items
        (or [] when it has none); otherwise nothing changes. Nothing is written. */
    method HydrateFromStorage()
      modifies this
      ensures items == if inBrowser && old(persisted).Some? then HydratedItems(old(persisted).value) else old(items)
      ensures persisted == old(persisted)
    {
      if inBrowser && persisted.Some? {
        items := HydratedItems(persisted.value);
      }
    }
  }
}
