# Content dashboard feed: a Dafny model

This project models the core of a personalised content dashboard. The dashboard gathers three feeds into one list:

- news headlines from NewsAPI;
- popular titles from TMDB;
- social posts.

The list is narrowed by the user's preferences and favorites. The model covers:

- **the content model** (`content.dfy`). An item is a record with the fields every item has, plus a `details` variant. The variant's constructor is the item's type tag (news, recommendation, social), so the tag decides which extra fields exist.
- **the normalizers** (`content_api.dfy`). These turn a NewsAPI headline payload and a TMDB popular-titles payload into items, with the JavaScript `||` fallbacks written out. The clock that the code reads once per item is a parameter indexed by position.
- **the favorites store** (`favorites.dfy`). A class with the saved items, newest first; dedup by id on insert; remove-all-by-id; clear; and hydrate. The blob written to browser storage is a field.
- **the preferences store** (`preferences.dfy`). A class with the selected categories, the dark-mode flag, the content-type filter and the favorites-only flag. It carries the stored blob and the page's dark-theme flag. Hydrate merges field by field with `||`.
- **the feed** (`content_feed.dfy`):
  - the aggregation and four-stage filter pipeline (category, then content type, then favorites-only, then case-insensitive search);
  - the outward loading / failed / empty / ready state;
  - the empty-state heading;
  - the "clear all" action;
  - the category the news query asks for.
- **the content card** (`content_card.dfy`): whether an item is a favorite, the star toggle, and the type badge.

Two support modules hold generic pieces:

- `sequences.dfy`: an order-preserving `Filter`, subsequences and `IndexOf`;
- `text.dfy`: ASCII lower-casing, substring search and decimal rendering of naturals.

## Model

| member | source | states |
|---|---|---|
| ContentModel.Content.Type | types/content.ts:1-42 | every item carries exactly one of the three tags, and the tag is the one whose variant-specific fields the item has |
| ContentModel.CategoriesAreSix | types/content.ts:3-9 | a category is one of exactly six values, listed once each |
| ContentModel.MediaTypeName | types/content.ts:31 | the media type is spelled "movie" or "tv": non-empty, and free of '-' and '/', so it can sit inside ids and paths |
| ContentApi.NormalizeArticle | features/content/contentApi.ts:48-59 | a news item has the news tag and no category. Title, url and publishedAt are copied. The description falls back to "No description available" when null or empty. imageUrl and author are absent exactly when the source field is null or empty. The id is news-name-index-timestamp |
| ContentApi.NormalizeNews | features/content/contentApi.ts:47-60 | one news item per article, in article order. Item i is the article-i item built with the clock reading taken for it, so every per-field fallback above carries over. Each is news-tagged with no category and its article's title, url and date |
| ContentApi.NewsIdsDistinct | features/content/contentApi.ts:49 | within one batch, news ids are pairwise distinct whatever the source names and clock readings, because the positions differ |
| ContentApi.NormalizeResult | features/content/contentApi.ts:73-85 | a recommendation has its id and url built from the requested type and the TMDB id. The title falls back title, then name, then "Untitled". The description falls back to "No description available". The poster url is present exactly when the poster path is. publishedAt falls back release date, then first-air date, then the clock. The media type is the requested one, the rating is vote_average and there is no category |
| ContentApi.NormalizeRecommendations | features/content/contentApi.ts:72-86 | the output has min(10, number of results) items, in result order. Item i is the result-i item built with the clock reading taken for it, so every per-field fallback above carries over. Each is a recommendation of the requested media type with no category |
| ContentApi.RecommendationsIgnoreClock | features/content/contentApi.ts:74-82 | ids, urls and titles do not depend on the clock, and a dated result gives the same item whatever the clock says |
| ContentApi.RecommendationIdsMatchTmdbIds | features/content/contentApi.ts:74 | two recommendations of a batch share an id if and only if their TMDB ids are equal |
| Favorites.HasId | features/favorites/favoritesSlice.ts:18 | true exactly when some saved item has the id |
| Favorites.WithFavorite | features/favorites/favoritesSlice.ts:18-20 | afterwards the id is saved and every earlier item is still there. An id already saved leaves the list as it was. A new item goes to index 0 with the old list behind it |
| Favorites.WithoutId | features/favorites/favoritesSlice.ts:28 | no item with the id remains. Every other item remains as many times as it was there. The relative order is kept |
| Favorites.AddPlacesAtHead | features/favorites/favoritesSlice.ts:17-20 | a new id goes to index 0 with the old list behind it, an id already saved leaves the list as it was, and afterwards the id is saved |
| Favorites.AddIsIdempotent | features/favorites/favoritesSlice.ts:17-20 | adding the same item twice is the same as adding it once |
| Favorites.AddPreservesUniqueIds | features/favorites/favoritesSlice.ts:17-20 | adding keeps ids pairwise distinct |
| Favorites.RemovePreservesUniqueIds | features/favorites/favoritesSlice.ts:27-28 | removing keeps ids pairwise distinct |
| Favorites.RemoveAbsentIsIdentity | features/favorites/favoritesSlice.ts:27-28 | removing an id nobody has changes nothing |
| Favorites.RemoveUndoesAdd | features/favorites/favoritesSlice.ts:17-28 | removing a freshly added id restores the list exactly |
| Favorites.FavoritesStore.constructor | features/favorites/favoritesSlice.ts:9-11 | the store starts empty, whatever storage holds |
| Favorites.FavoritesStore.AddFavorite | features/favorites/favoritesSlice.ts:17-26 | the items become the list with the item added. The blob is written, as the new state, only when the id was new and a window exists. Distinct ids stay distinct |
| Favorites.FavoritesStore.RemoveFavorite | features/favorites/favoritesSlice.ts:27-33 | the items lose every entry with the id. The blob is written as the new state when a window exists. Distinct ids stay distinct |
| Favorites.FavoritesStore.ClearFavorites | features/favorites/favoritesSlice.ts:34-40 | the items become empty, and the blob is written as the new state when a window exists |
| Favorites.FavoritesStore.HydrateFromStorage | features/favorites/favoritesSlice.ts:42-50 | with a stored blob in a browser, the items become the blob's items, or empty when the blob has none. Otherwise nothing changes. Nothing is written |
| Preferences.Toggled | features/preferences/preferencesSlice.ts:34-41 | an absent category is appended. A present one loses its first occurrence: the length drops by one and the multiset loses one copy |
| Preferences.ToggleTwiceAbsent | features/preferences/preferencesSlice.ts:36-41 | toggling an absent category twice restores the list exactly |
| Preferences.ToggleTwicePresent | features/preferences/preferencesSlice.ts:36-41 | toggling a category present once twice keeps the members but moves it to the end; with duplicates it drops two copies |
| Preferences.Merge | features/preferences/preferencesSlice.ts:86-90 | a stored list replaces the categories, even an empty one, and a stored filter replaces the filter. An absent field keeps the current value. Each flag becomes stored OR current |
| Preferences.HydrateRestoresSnapshotIntoFreshStore | features/preferences/preferencesSlice.ts:16-21 | a snapshot written by the store and hydrated into a fresh store gives back the state that was written |
| Preferences.HydrateCannotClearFlags | features/preferences/preferencesSlice.ts:88-90 | hydrate never turns a flag off: a stored false cannot undo a current true |
| Preferences.HydrateIsIdempotent | features/preferences/preferencesSlice.ts:82-94 | hydrating twice from the same blob equals hydrating once |
| Preferences.PreferencesStore.constructor | features/preferences/preferencesSlice.ts:16-21 | the store starts with technology and business selected, dark mode off, filter all and favorites-only off |
| Preferences.PreferencesStore.SetCategories | features/preferences/preferencesSlice.ts:27-33 | only the categories change. The blob is written as the new state in a browser. The theme is untouched |
| Preferences.PreferencesStore.ToggleCategory | features/preferences/preferencesSlice.ts:34-46 | only the categories change, to the toggled list, and the blob is written as the new state in a browser |
| Preferences.PreferencesStore.ToggleDarkMode | features/preferences/preferencesSlice.ts:47-55 | only the flag flips. The blob is written, and the theme follows the flag, in a browser |
| Preferences.PreferencesStore.SetDarkMode | features/preferences/preferencesSlice.ts:56-64 | only the flag changes. The blob is written, and the theme follows the flag, in a browser |
| Preferences.PreferencesStore.SetContentTypeFilter | features/preferences/preferencesSlice.ts:66-72 | only the filter changes, and the blob is written as the new state in a browser |
| Preferences.PreferencesStore.ToggleFavoritesOnly | features/preferences/preferencesSlice.ts:74-80 | only the favorites-only flag flips, and the blob is written as the new state in a browser |
| Preferences.PreferencesStore.HydrateFromStorage | features/preferences/preferencesSlice.ts:82-94 | with a stored blob in a browser, the state becomes the merge and the theme follows dark mode. Otherwise nothing changes. Nothing is written |
| Preferences.ToggleTwiceRestoresFlags | features/preferences/preferencesSlice.ts:47-80 | toggling dark mode twice and favorites-only twice restores the state |
| ContentFeed.FavoriteIds | features/content/ContentFeed.tsx:27 | id i is the id of favorite i, and an id is listed exactly when some favorite has it |
| ContentFeed.CombinedLayout | features/content/ContentFeed.tsx:63-67 | the pool is the delivered news, then the delivered recommendations, then the delivered social posts. A source without data adds nothing |
| ContentFeed.CategoryStageMeaning | features/content/ContentFeed.tsx:71-75 | with no category selected the stage keeps everything. Otherwise it keeps an item if and only if the item has a category and that category is selected |
| ContentFeed.TypeStageMeaning | features/content/ContentFeed.tsx:79-86 | "all" keeps everything. "movies" keeps exactly the recommendations. "news" and "social" keep exactly the items of that variant |
| ContentFeed.FavoritesStageMeaning | features/content/ContentFeed.tsx:89-91 | with favorites-only off the stage keeps everything. With it on, the stage keeps an item if and only if its id is among the favorites' ids |
| ContentFeed.SearchStageMeaning | features/content/ContentFeed.tsx:94-101 | an empty query keeps everything. Otherwise the stage keeps an item if and only if the lower-cased query occurs at some position of the lower-cased title or description |
| ContentFeed.CategoryStep | features/content/ContentFeed.tsx:70-75 | the category step, skipped under an empty selection, keeps exactly the items the category stage accepts |
| ContentFeed.TypeStep | features/content/ContentFeed.tsx:79-86 | the type step, applied after the category step, keeps exactly the items the first two stages accept |
| ContentFeed.FavoritesStep | features/content/ContentFeed.tsx:89-91 | the favorites step, applied after the first two, keeps exactly the items the first three stages accept |
| ContentFeed.SearchStep | features/content/ContentFeed.tsx:94-101 | the search step, with the query lower-cased once, keeps exactly the items all four stages accept |
| ContentFeed.AggregateFeed | features/content/ContentFeed.tsx:63-104 | the stage-by-stage result equals the concatenated sources filtered once by the conjunction of the four stage predicates, so it does not depend on the order of the stages |
| ContentFeed.FeedKeepsSourceOrder | features/content/ContentFeed.tsx:63-67 | the feed is the visible news, then the visible recommendations, then the visible social posts. It is an order-preserving subsequence of the pool. A missing source adds nothing |
| ContentFeed.FeedMembership | features/content/ContentFeed.tsx:69-101 | an item is shown if and only if it is in the pool and passes the category, type, favorites and search stages |
| ContentFeed.FeedKeepsEveryCopy | features/content/ContentFeed.tsx:69-103 | an item that passes the stages appears in the feed as many times as in the pool. Any other item does not appear at all |
| ContentFeed.FavoritesOnlyShowsSavedItems | features/content/ContentFeed.tsx:26-27 | fed from the two stores with favorites-only on, the feed shows only items whose id the favorites store holds |
| ContentFeed.CategorySelectionNeedsCategory | features/content/ContentFeed.tsx:71-75 | under a non-empty selection every shown item has a category, and it is a selected one |
| ContentFeed.EmptySelectionShowsMost | features/content/ContentFeed.tsx:71-75 | whatever a selection shows, the empty selection shows too, in the same order |
| ContentFeed.NormalizedFeedsNeverPassCategoryStage | features/content/ContentFeed.tsx:71-75 | under any non-empty selection, normalized news and recommendations are all filtered out, and the feed is the visible social posts alone |
| ContentFeed.FavoritesOnlyWithoutFavoritesIsEmpty | features/content/ContentFeed.tsx:89-91 | favorites-only with no favorites shows nothing |
| ContentFeed.SearchIgnoresQueryCase | features/content/ContentFeed.tsx:94-100 | a query and its lower-cased form select the same items |
| ContentFeed.SearchIgnoresItemCase | features/content/ContentFeed.tsx:97-99 | lower-casing an item's title and description does not change whether it matches |
| ContentFeed.EmptyReasonFor | features/content/ContentFeed.tsx:247-257 | the reason is chosen by first match. "No favorites yet" if and only if favorites-only is on with no favorites. Then "no favorited matches" if and only if favorites-only is on with some favorites. Then "no results" if and only if there is a query. Then "no content of type", naming the filter, if and only if the filter is not "all". Then "no categories selected" if and only if none is selected. Otherwise the default |
| ContentFeed.EmptyHeadingIdentifiesReason | features/content/ContentFeed.tsx:247-257 | the six headings, with the four filter names, are pairwise different, so the heading tells which condition emptied the feed |
| ContentFeed.FeedOutcome | features/content/ContentFeed.tsx:106-107 | loading if and only if some source loads. Failed if and only if none loads and some failed. Empty if and only if neither and the filtered list is empty, and then it carries the first-match reason. Ready carries that non-empty list |
| ContentFeed.NoCategoriesMessageMeansNoData | features/content/ContentFeed.tsx:247-257 | "No categories selected" appears only when the sources delivered no item at all |
| ContentFeed.NoFavoritesMessageWhenFavoritesEmpty | features/content/ContentFeed.tsx:247-248 | with favorites-only on, no favorites, and every source settled without error, the feed is empty with "No favorites yet" |
| ContentFeed.PrimaryCategory | features/content/ContentFeed.tsx:42 | the news query asks for a selected category when there is one, namely the first, and for technology otherwise |
| ContentFeed.ClearAllFilters | features/content/ContentFeed.tsx:34-38 | toggling each originally selected category once leaves the list empty, duplicates included. The other fields and the theme are unchanged. The blob is written when something was selected |
| ContentCard.IsFavorite | components/ui/ContentCard.tsx:24 | true if and only if some favorite has the card's id |
| ContentCard.AfterToggle | components/ui/ContentCard.tsx:26-33 | one press flips whether the card is a favorite. A non-favorite is put at the front. For a favorite, the result is exactly the removal of its id: every other favorite stays, every copy, in order, and the list gets strictly shorter |
| ContentCard.ToggleFavorite | components/ui/ContentCard.tsx:26-33 | the store's items become the toggled list, the blob is written as the new state in a browser, and distinct ids stay distinct |
| ContentCard.ToggleFromEmpty | components/ui/ContentCard.tsx:26-33 | from no favorites, one press leaves exactly that item saved |
| ContentCard.ToggleTwiceRestores | components/ui/ContentCard.tsx:24-33 | two presses on a non-favorite restore the favorites exactly |
| ContentCard.ToggleRemovesEveryCopy | components/ui/ContentCard.tsx:28-29 | after pressing on a favorite, no saved item has its id, even one whose other fields differ |
| ContentCard.BadgeLabel | components/ui/ContentCard.tsx:48-70 | "News" for news, "Movie" or "TV Show" for a recommendation by its media type, and the platform name for a social post |
| ContentCard.BadgeIdentifiesKind | components/ui/ContentCard.tsx:48-70 | equal badges mean equal type tags, and also equal media types for recommendations and equal platforms for social posts |

## Left out

- ContentApi.NormalizeNews, ContentApi.NormalizeRecommendations: the response types require the `articles` and `results` arrays. A payload without them makes the code throw. That failure is represented only by the source's `hasError` flag in `SourceStatus`, which the feed reports as Failed.
- Transport: HTTP fetching, caching, refetching, API keys and the server proxy routes are not modelled. The sources reach the feed as already-delivered data with their loading and error flags.
- Social source: the social query passes the payload through unchanged, so social items enter the model as already-typed items. The mock data behind it is not part of this model.
- Storage: browser storage is a field holding the blob as already parsed. Neither `JSON.stringify` nor `JSON.parse` is modelled, so a blob that fails to parse is out of scope. So is a blob whose fields have the wrong shape, which the code does not check. A missing or `null` field is modelled. An empty stored string is treated as no blob, as the code's truthiness test does.
- Page theme: the dark class on the page root is a boolean field. The rest of the DOM is not modelled.
- Clock: `Date.now()` and `new Date().toISOString()` are parameters indexed by the item's position.
- Preferences.Merge: a stored `contentTypeFilter` that is an empty string cannot be expressed, because the filter is an enumeration.
- Floating point: `vote_average` and the rating are kept as opaque reals. Formatting (`toFixed`, `formatDate`, `truncateText`) is not modelled.
- TMDB ids are naturals; a negative id is not modelled.
- Text.Lower: only ASCII letters are folded. Unicode case mapping is not modelled.
- ContentCard.BadgeLabel: the CSS `capitalize` applied to the platform name is presentation and is not modelled. The platform icon is left out too.
- Rendering: JSX, animations, layout, the result count, the search box and the other panels of the dashboard are not modelled.
- The legacy preferences type is not part of this model.
