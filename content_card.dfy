/** The content card: whether an item is a favorite, the star button that
    adds or removes it, and the type badge. */
module ContentCard {
  import opened ContentModel
  import opened Sequences
  import opened Favorites

  /** `favorites.some(item => item.id === content.id)`: favorites are
      matched by id, not by the whole record. */
  function IsFavorite(favorites: seq<Content>, content: Content): (r: bool)
    ensures r <==> exists i :: 0 <= i < |favorites| && favorites[i].id == content.id
  {
    HasId(favorites, content.id)
  }

  /** The favorites after one press of the star on `content`. */
  function AfterToggle(favorites: seq<Content>, content: Content): (r: seq<Content>)
    ensures IsFavorite(r, content) <==> !IsFavorite(favorites, content)
    ensures !IsFavorite(favorites, content) ==> r == [content] + favorites
    ensures IsFavorite(favorites, content) ==> r == WithoutId(favorites, content.id)
    ensures IsFavorite(favorites, content) ==> IsSubsequence(r, favorites) && |r| < |favorites|
  {
    if IsFavorite(favorites, content) then
      RemovingPresentShortens(favorites, content.id);
      WithoutId(favorites, content.id)
    else
      AddPlacesAtHead(favorites, content);
      WithFavorite(favorites, content)
  }

  /** Removing an id that is present makes the list strictly shorter. */
  lemma RemovingPresentShortens(items: seq<Content>, id: string)
    requires HasId(items, id)
    ensures |WithoutId(items, id)| < |items|
  {
    var r := WithoutId(items, id);
    SubsequenceIsNoLonger(r, items);
    if |r| == |items| {
      SubsequenceOfSameLengthIsEqual(r, items);
      assert false;
    }
  }

  /** `handleFavoriteToggle`: removes the item's id when it is a favorite,
      adds the item otherwise. */
  method ToggleFavorite(store: FavoritesStore, content: Content)
    modifies store
    ensures store.items == AfterToggle(old(store.items), content)
    ensures store.persisted == if store.inBrowser then Some(store.Snapshot()) else old(store.persisted)
    ensures UniqueIds(old(store.items)) ==> UniqueIds(store.items)
  {
    var isFavorite := HasId(store.items, content.id);
    if isFavorite {
      store.RemoveFavorite(content.id);
    } else {
      store.AddFavorite(content);
    }
  }

  /** Pressing the star twice on an item that was not a favorite gives back
      exactly the list there was before. */
  lemma ToggleTwiceRestores(favorites: seq<Content>, content: Content)
    requires !IsFavorite(favorites, content)
    ensures AfterToggle(AfterToggle(favorites, content), content) == favorites
  {
    assert AfterToggle(favorites, content) == WithFavorite(favorites, content);
    RemoveUndoesAdd(favorites, content);
  }

  /** From no favorites, one press leaves exactly that item saved. */
  lemma ToggleFromEmpty(content: Content)
    ensures AfterToggle([], content) == [content]
    ensures IsFavorite(AfterToggle([], content), content)
  {
  }

  /** Pressing the star on a favorite removes every saved item with its id,
      including stale copies whose other fields differ. */
  lemma ToggleRemovesEveryCopy(favorites: seq<Content>, content: Content, other: Content)
    requires IsFavorite(favorites, content) && other.id == content.id
    ensures !IsFavorite(AfterToggle(favorites, content), other)
  {
  }

  /** The badge text: "News"; "Movie" or "TV Show" for a recommendation; the
      platform name for a social post. */
  function BadgeLabel(c: Content): (text: string)
    ensures c.Type() == News ==> text == "News"
    ensures c.Type() == Recommendation ==>
      text == (if c.details.recommendation.mediaType == Movie then "Movie" else "TV Show")
    ensures c.Type() == Social ==> text == PlatformName(c.details.social.platform)
  {
    match c.details
    case NewsDetails(_) => "News"
    case RecommendationDetails(r) => if r.mediaType == Movie then "Movie" else "TV Show"
    case SocialDetails(s) => PlatformName(s.platform)
  }

  /** The badge tells the item's type, and for a recommendation its media
      type and for a social post its platform. */
  lemma BadgeIdentifiesKind(a: Content, b: Content)
    requires BadgeLabel(a) == BadgeLabel(b)
    ensures a.Type() == b.Type()
    ensures a.Type() == Recommendation ==> a.details.recommendation.mediaType == b.details.recommendation.mediaType
    ensures a.Type() == Social ==> a.details.social.platform == b.details.social.platform
  {
    var la, lb := BadgeLabel(a), BadgeLabel(b);
    assert la[0] == lb[0] && |la| == |lb|;
  }
}
