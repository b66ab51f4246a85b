/** The feed: the three sources concatenated (news, then recommendations,
    then social) and narrowed by four stages in a fixed order: category,
    content type, favorites-only, search. Also the outward status of the
    feed, the "clear all" action and the category the news query uses. */
module ContentFeed {
  import opened ContentModel
  import opened Sequences
  import opened Text
  import opened ContentApi
  import opened Favorites
  import opened Preferences

  /** The inputs of the pipeline besides the sources. */
  datatype FeedFilters = FeedFilters(
    categories: seq<ContentCategory>,
    contentTypeFilter: ContentTypeFilter,
    showFavoritesOnly: bool,
    favoriteIds: seq<string>,
    searchQuery: string)

  /** `favoriteItems.map(item => item.id)`. */
  function FavoriteIds(items: seq<Content>): (ids: seq<string>)
    ensures |ids| == |items|
    ensures forall i :: 0 <= i < |items| ==> ids[i] == items[i].id
    ensures forall id :: id in ids <==> HasId(items, id)
  {
    var ids := seq(|items|, i requires 0 <= i < |items| => items[i].id);
    assert forall i :: 0 <= i < |items| ==> ids[i] == items[i].id;
    ids
  }

  /** The filters the feed reads from the two stores and the search box. */
  function FiltersOf(prefs: PreferencesStore, favorites: FavoritesStore, searchQuery: string): FeedFilters
    reads prefs, favorites
  {
    FeedFilters(prefs.categories, prefs.contentTypeFilter, prefs.showFavoritesOnly,
      FavoriteIds(favorites.items), searchQuery)
  }

  /** A source that has delivered data contributes it; one that has not contributes nothing. */
  function Present(data: Option<seq<Content>>): seq<Content>
  {
    if data.Some? then data.value else []
  }

  /** The pool before filtering: news, then recommendations, then social. */
  function Combined(news: Option<seq<Content>>, movies: Option<seq<Content>>, social: Option<seq<Content>>): seq<Content>
  {
    Present(news) + Present(movies) + Present(social)
  }

  /** The pool holds every delivered news item, then every delivered
      recommendation, then every delivered social post; a source without
      data adds nothing. */
  lemma CombinedLayout(news: Option<seq<Content>>, movies: Option<seq<Content>>, social: Option<seq<Content>>)
    ensures var r, n, m := Combined(news, movies, social), |Present(news)|, |Present(movies)|;
      && |r| == n + m + |Present(social)|
      && r[..n] == Present(news)
      && r[n..n + m] == Present(movies)
      && r[n + m..] == Present(social)
    ensures news.None? && movies.None? && social.None? ==> Combined(news, movies, social) == []
  {
    var r, n, m := Combined(news, movies, social), |Present(news)|, |Present(movies)|;
    assert r[..n] == Present(news);
    assert r[n..n + m] == Present(movies);
  }

  /** `item.category && selectedCategories.includes(item.category)`. */
  predicate InCategories(c: Content, selected: seq<ContentCategory>)
  {
    c.category.Some? && c.category.value in selected
  }

  /** The content-type test for a filter other than `all`: `movies` selects
      recommendations, `news` and `social` select the same-named type. */
  predicate MatchesType(c: Content, f: ContentTypeFilter)
  {
    match f
    case All => true
    case OnlyNews => c.Type() == News
    case OnlyMovies => c.Type() == Recommendation
    case OnlySocial => c.Type() == Social
  }

  /** The lower-cased query occurs in the lower-cased title or description. */
  predicate SearchHit(c: Content, query: string)
  {
    var q := Lower(query);
    Includes(Lower(c.title), q) || Includes(Lower(c.description), q)
  }

  /** Each stage as a predicate, including the case where the stage is skipped. */
  predicate CategoryStage(c: Content, f: FeedFilters)
  {
    |f.categories| == 0 || InCategories(c, f.categories)
  }

  predicate TypeStage(c: Content, f: FeedFilters)
  {
    f.contentTypeFilter == All || MatchesType(c, f.contentTypeFilter)
  }

  predicate FavoritesStage(c: Content, f: FeedFilters)
  {
    !f.showFavoritesOnly || c.id in f.favoriteIds
  }

  predicate SearchStage(c: Content, f: FeedFilters)
  {
    f.searchQuery == "" || SearchHit(c, f.searchQuery)
  }

  /** The category stage passes everything under an empty selection;
      otherwise it keeps an item iff the item has a category and it is selected. */
  lemma CategoryStageMeaning(c: Content, f: FeedFilters)
    ensures |f.categories| == 0 ==> CategoryStage(c, f)
    ensures |f.categories| > 0 ==>
      (CategoryStage(c, f) <==> exists k :: 0 <= k < |f.categories| && c.category == Some(f.categories[k]))
  {
  }

  /** The type stage passes everything under `all`; `movies` keeps exactly
      the recommendations, `news` and `social` the items of that variant. */
  lemma TypeStageMeaning(c: Content, f: FeedFilters)
    ensures f.contentTypeFilter == All ==> TypeStage(c, f)
    ensures f.contentTypeFilter == OnlyNews ==> (TypeStage(c, f) <==> c.details.NewsDetails?)
    ensures f.contentTypeFilter == OnlyMovies ==> (TypeStage(c, f) <==> c.details.RecommendationDetails?)
    ensures f.contentTypeFilter == OnlySocial ==> (TypeStage(c, f) <==> c.details.SocialDetails?)
  {
  }

  /** With favorites-only off the stage passes everything; on, it keeps an
      item iff its id is among the favorites' ids. */
  lemma FavoritesStageMeaning(c: Content, f: FeedFilters)
    ensures !f.showFavoritesOnly ==> FavoritesStage(c, f)
    ensures f.showFavoritesOnly ==>
      (FavoritesStage(c, f) <==> exists k :: 0 <= k < |f.favoriteIds| && f.favoriteIds[k] == c.id)
  {
  }

  /** An empty query passes everything; otherwise an item is kept iff the
      lower-cased query occurs at some position of its lower-cased title or
      description. */
  lemma SearchStageMeaning(c: Content, f: FeedFilters)
    ensures f.searchQuery == "" ==> SearchStage(c, f)
    ensures f.searchQuery != "" ==>
      (SearchStage(c, f) <==>
        (exists i :: OccursAt(Lower(c.title), Lower(f.searchQuery), i)) ||
        (exists i :: OccursAt(Lower(c.description), Lower(f.searchQuery), i)))
  {
  }

  /** An item is shown when it passes all four stages. */
  predicate Visible(c: Content, f: FeedFilters)
  {
    CategoryStage(c, f) && TypeStage(c, f) && FavoritesStage(c, f) && SearchStage(c, f)
  }

  /** What the feed shows: the pool filtered by the conjunction of the stages. */
  function VisibleContent(news: Option<seq<Content>>, movies: Option<seq<Content>>, social: Option<seq<Content>>, f: FeedFilters): seq<Content>
  {
    Filter(Combined(news, movies, social), (c: Content) => Visible(c, f))
  }

  /** The `allContent` computation: build the pool, then narrow it stage by
      stage. The result is the pool filtered once by all four stages together,
      so it does not depend on the order in which the stages run. */
  method AggregateFeed(news: Option<seq<Content>>, movies: Option<seq<Content>>, social: Option<seq<Content>>, f: FeedFilters)
    returns (filtered: seq<Content>)
    ensures filtered == VisibleContent(news, movies, social, f)
  {
    var combined: seq<Content> := [];
    if news.Some? { combined := combined + news.value; }
    if movies.Some? { combined := combined + movies.value; }
    if social.Some? { combined := combined + social.value; }
    assert combined == Combined(news, movies, social);

    filtered := combined;
    if |f.categories| > 0 {
      filtered := Filter(filtered, (c: Content) => InCategories(c, f.categories));
    }
    CategoryStep(combined, f);

    if f.contentTypeFilter != All {
      var kind := f.contentTypeFilter;
      filtered := Filter(filtered, (c: Content) =>
        if kind == OnlyMovies then c.Type() == Recommendation else MatchesType(c, kind));
    }
    TypeStep(combined, f);

    if f.showFavoritesOnly {
      filtered := Filter(filtered, (c: Content) => c.id in f.favoriteIds);
    }
    FavoritesStep(combined, f);

    if f.searchQuery != "" {
      var query := Lower(f.searchQuery);
      filtered := Filter(filtered, (c: Content) =>
        Includes(Lower(c.title), query) || Includes(Lower(c.description), query));
    }
    SearchStep(combined, f);
  }

  /** The items that pass the first stages, as named predicates. */
  predicate UpToType(c: Content, f: FeedFilters)
  {
    CategoryStage(c, f) && TypeStage(c, f)
  }

  predicate UpToFavorites(c: Content, f: FeedFilters)
  {
    UpToType(c, f) && FavoritesStage(c, f)
  }

  /** The category step of `AggregateFeed` keeps what the category stage keeps. */
  lemma CategoryStep(s: seq<Content>, f: FeedFilters)
    ensures (if |f.categories| > 0 then Filter(s, (c: Content) => InCategories(c, f.categories)) else s)
      == Filter(s, (c: Content) => CategoryStage(c, f))
  {
    if |f.categories| > 0 {
      FilterExtensional(s, (c: Content) => InCategories(c, f.categories), (c: Content) => CategoryStage(c, f));
    } else {
      FilterKeepsAll(s, (c: Content) => CategoryStage(c, f));
    }
  }

  /** The type step, applied after the category step, keeps what the first two stages keep. */
  lemma TypeStep(s: seq<Content>, f: FeedFilters)
    ensures var before := Filter(s, (c: Content) => CategoryStage(c, f));
      var kind := f.contentTypeFilter;
      (if kind != All then Filter(before, (c: Content) =>
        if kind == OnlyMovies then c.Type() == Recommendation else MatchesType(c, kind)) else before)
      == Filter(s, (c: Content) => UpToType(c, f))
  {
    var kind := f.contentTypeFilter;
    if kind != All {
      FilterFilter(s, (c: Content) => CategoryStage(c, f), (c: Content) =>
        if kind == OnlyMovies then c.Type() == Recommendation else MatchesType(c, kind), (c: Content) => UpToType(c, f));
    } else {
      FilterExtensional(s, (c: Content) => CategoryStage(c, f), (c: Content) => UpToType(c, f));
    }
  }

  /** The favorites step keeps what the first three stages keep. */
  lemma FavoritesStep(s: seq<Content>, f: FeedFilters)
    ensures var before := Filter(s, (c: Content) => UpToType(c, f));
      (if f.showFavoritesOnly then Filter(before, (c: Content) => c.id in f.favoriteIds) else before)
      == Filter(s, (c: Content) => UpToFavorites(c, f))
  {
    if f.showFavoritesOnly {
      FilterFilter(s, (c: Content) => UpToType(c, f), (c: Content) => c.id in f.favoriteIds, (c: Content) => UpToFavorites(c, f));
    } else {
      FilterExtensional(s, (c: Content) => UpToType(c, f), (c: Content) => UpToFavorites(c, f));
    }
  }

  /** The search step keeps what all four stages keep. */
  lemma SearchStep(s: seq<Content>, f: FeedFilters)
    ensures var before := Filter(s, (c: Content) => UpToFavorites(c, f));
      var query := Lower(f.searchQuery);
      (if f.searchQuery != "" then Filter(before, (c: Content) =>
        Includes(Lower(c.title), query) || Includes(Lower(c.description), query)) else before)
      == Filter(s, (c: Content) => Visible(c, f))
  {
    var query := Lower(f.searchQuery);
    if f.searchQuery != "" {
      FilterFilter(s, (c: Content) => UpToFavorites(c, f), (c: Content) =>
        Includes(Lower(c.title), query) || Includes(Lower(c.description), query), (c: Content) => Visible(c, f));
    } else {
      FilterExtensional(s, (c: Content) => UpToFavorites(c, f), (c: Content) => Visible(c, f));
    }
  }


  /** The feed keeps the pool's order and shows news first, then
      recommendations, then social posts; a missing source adds nothing. */
  lemma FeedKeepsSourceOrder(news: Option<seq<Content>>, movies: Option<seq<Content>>, social: Option<seq<Content>>, f: FeedFilters)
    ensures var p := (c: Content) => Visible(c, f);
      VisibleContent(news, movies, social, f) == Filter(Present(news), p) + Filter(Present(movies), p) + Filter(Present(social), p)
    ensures IsSubsequence(VisibleContent(news, movies, social, f), Combined(news, movies, social))
  {
    var p := (c: Content) => Visible(c, f);
    FilterAppend(Present(news) + Present(movies), Present(social), p);
    FilterAppend(Present(news), Present(movies), p);
  }

  /** An item is in the feed exactly when it is in the pool and passes every
      stage: each stage keeps an item iff its predicate holds. */
  lemma FeedMembership(news: Option<seq<Content>>, movies: Option<seq<Content>>, social: Option<seq<Content>>, f: FeedFilters, c: Content)
    ensures c in VisibleContent(news, movies, social, f) <==> c in Combined(news, movies, social) && Visible(c, f)
  {
    var pool := Combined(news, movies, social);
    var r := VisibleContent(news, movies, social, f);
    if c in r {
      var i :| 0 <= i < |r| && r[i] == c;
    }
    if c in pool && Visible(c, f) {
      var i :| 0 <= i < |pool| && pool[i] == c;
    }
  }

  /** Filtering neither merges nor drops copies: an item that passes the
      stages is shown as many times as the pool holds it, any other not at all. */
  lemma FeedKeepsEveryCopy(news: Option<seq<Content>>, movies: Option<seq<Content>>, social: Option<seq<Content>>, f: FeedFilters, c: Content)
    ensures multiset(VisibleContent(news, movies, social, f))[c] ==
      if Visible(c, f) then multiset(Combined(news, movies, social))[c] else 0
  {
    FilterCount(Combined(news, movies, social), (c: Content) => Visible(c, f), c);
  }

  /** Fed from the two stores with favorites-only on, the feed shows only
      items whose id the favorites store holds. */
  lemma FavoritesOnlyShowsSavedItems(prefs: PreferencesStore, favorites: FavoritesStore, searchQuery: string,
    news: Option<seq<Content>>, movies: Option<seq<Content>>, social: Option<seq<Content>>)
    requires prefs.showFavoritesOnly
    ensures forall c :: c in VisibleContent(news, movies, social, FiltersOf(prefs, favorites, searchQuery)) ==>
      HasId(favorites.items, c.id)
  {
    var f := FiltersOf(prefs, favorites, searchQuery);
    forall c | c in VisibleContent(news, movies, social, f) ensures HasId(favorites.items, c.id) {
      FeedMembership(news, movies, social, f, c);
    }
  }

  /** With a non-empty selection, only items whose category is present and
      selected survive; items without a category never do. */
  lemma CategorySelectionNeedsCategory(news: Option<seq<Content>>, movies: Option<seq<Content>>, social: Option<seq<Content>>, f: FeedFilters)
    requires |f.categories| > 0
    ensures forall c :: c in VisibleContent(news, movies, social, f) ==>
      c.category.Some? && c.category.value in f.categories
  {
    var r := VisibleContent(news, movies, social, f);
    forall c | c in r ensures c.category.Some? && c.category.value in f.categories {
      var i :| 0 <= i < |r| && r[i] == c;
    }
  }

  /** An empty selection is the widest: whatever a selection shows, the
      empty selection shows too, in the same order. */
  lemma EmptySelectionShowsMost(news: Option<seq<Content>>, movies: Option<seq<Content>>, social: Option<seq<Content>>, f: FeedFilters)
    ensures IsSubsequence(VisibleContent(news, movies, social, f), VisibleContent(news, movies, social, f.(categories := [])))
  {
    var pool := Combined(news, movies, social);
    var narrow := (c: Content) => Visible(c, f);
    var wide := (c: Content) => Visible(c, f.(categories := []));
    var g := f.(categories := []);
    forall c: Content ensures narrow(c) ==> wide(c) {
      assert CategoryStage(c, g);
    }
    FilterWeakerKeepsMore(pool, narrow, wide);
    assert VisibleContent(news, movies, social, f) == Filter(pool, narrow) by {
      FilterExtensional(pool, narrow, (c: Content) => Visible(c, f));
    }
    assert VisibleContent(news, movies, social, g) == Filter(pool, wide) by {
      FilterExtensional(pool, wide, (c: Content) => Visible(c, g));
    }
  }

  /** The normalizers never set a category, so under any non-empty selection
      (the initial one included) normalized news and recommendations are all
      filtered out and only social posts can be shown. */
  lemma NormalizedFeedsNeverPassCategoryStage(
    newsResponse: NewsApiResponse, clock: nat -> nat,
    tmdbResponse: TmdbResponse, clockIso: nat -> string,
    social: Option<seq<Content>>, f: FeedFilters)
    requires |f.categories| > 0
    ensures var p := (c: Content) => Visible(c, f);
      VisibleContent(Some(NormalizeNews(newsResponse, clock)),
        Some(NormalizeRecommendations(tmdbResponse, Movie, clockIso)), social, f)
      == Filter(Present(social), p)
  {
    var p := (c: Content) => Visible(c, f);
    var news := Some(NormalizeNews(newsResponse, clock));
    var movies := Some(NormalizeRecommendations(tmdbResponse, Movie, clockIso));
    FeedKeepsSourceOrder(news, movies, social, f);
    FilterKeepsNone(Present(news), p);
    FilterKeepsNone(Present(movies), p);
  }

  /** Favorites-only with no favorites shows nothing, whatever the sources hold. */
  lemma FavoritesOnlyWithoutFavoritesIsEmpty(news: Option<seq<Content>>, movies: Option<seq<Content>>, social: Option<seq<Content>>, f: FeedFilters)
    requires f.showFavoritesOnly && f.favoriteIds == []
    ensures VisibleContent(news, movies, social, f) == []
  {
    FilterKeepsNone(Combined(news, movies, social), (c: Content) => Visible(c, f));
  }

  /** Search ignores the case of the query. */
  lemma SearchIgnoresQueryCase(c: Content, query: string)
    ensures SearchHit(c, query) == SearchHit(c, Lower(query))
  {
    LowerIsIdempotent(query);
  }

  /** Search ignores the case of the item's title and description. */
  lemma SearchIgnoresItemCase(c: Content, query: string)
    ensures SearchHit(c, query) == SearchHit(c.(title := Lower(c.title), description := Lower(c.description)), query)
  {
    LowerIsIdempotent(c.title);
    LowerIsIdempotent(c.description);
  }

  /** One source as the feed sees it: data (possibly stale) and two flags. */
  datatype SourceStatus = SourceStatus(data: Option<seq<Content>>, isLoading: bool, hasError: bool)

  /** Why the feed is empty; each reason has its own heading. */
  datatype EmptyReason =
    | NoFavoritesYet
    | NoFavoritedMatches
    | NoSearchResults
    | NoContentOfType(filter: ContentTypeFilter)
    | NoCategoriesSelected
    | NoCategoryMatches

  /** What the feed area shows. */
  datatype FeedView = Loading | Failed | Empty(reason: EmptyReason) | Ready(items: seq<Content>)

  /** The empty-state heading: the first matching condition decides. */
  function EmptyReasonFor(f: FeedFilters): (r: EmptyReason)
    ensures r == NoFavoritesYet <==> f.showFavoritesOnly && |f.favoriteIds| == 0
    ensures r == NoFavoritedMatches <==> f.showFavoritesOnly && |f.favoriteIds| > 0
    ensures r == NoSearchResults <==> !f.showFavoritesOnly && f.searchQuery != ""
    ensures r.NoContentOfType? <==> !f.showFavoritesOnly && f.searchQuery == "" && f.contentTypeFilter != All
    ensures r.NoContentOfType? ==> r.filter == f.contentTypeFilter
    ensures r == NoCategoriesSelected <==>
      !f.showFavoritesOnly && f.searchQuery == "" && f.contentTypeFilter == All && |f.categories| == 0
    ensures r == NoCategoryMatches <==>
      !f.showFavoritesOnly && f.searchQuery == "" && f.contentTypeFilter == All && |f.categories| > 0
  {
    if f.showFavoritesOnly && |f.favoriteIds| == 0 then NoFavoritesYet
    else if f.showFavoritesOnly then NoFavoritedMatches
    else if f.searchQuery != "" then NoSearchResults
    else if f.contentTypeFilter != All then NoContentOfType(f.contentTypeFilter)
    else if |f.categories| == 0 then NoCategoriesSelected
    else NoCategoryMatches
  }

  function EmptyHeading(reason: EmptyReason): string
  {
    match reason
    case NoFavoritesYet => "No favorites yet"
    case NoFavoritedMatches => "No favorited content matches your filters"
    case NoSearchResults => "No results found"
    case NoContentOfType(filter) => "No " + FilterName(filter) + " content available"
    case NoCategoriesSelected => "No categories selected"
    case NoCategoryMatches => "No content matches your selected categories"
  }

  /** Different reasons give different headings, so the heading tells the
      user which condition emptied the feed. */
  lemma EmptyHeadingIdentifiesReason(a: EmptyReason, b: EmptyReason)
    ensures EmptyHeading(a) == EmptyHeading(b) ==> a == b
  {
    HeadingShape(a);
    HeadingShape(b);
  }

  /** The fourth letter and the length of a heading, which together tell the reasons apart. */
  lemma HeadingShape(r: EmptyReason)
    ensures |EmptyHeading(r)| > 3
    ensures (EmptyHeading(r)[3], |EmptyHeading(r)|) == match r
      case NoFavoritesYet => ('f', 16)
      case NoFavoritedMatches => ('f', 41)
      case NoSearchResults => ('r', 16)
      case NoContentOfType(All) => ('a', 24)
      case NoContentOfType(OnlyNews) => ('n', 25)
      case NoContentOfType(OnlyMovies) => ('m', 27)
      case NoContentOfType(OnlySocial) => ('s', 27)
      case NoCategoriesSelected => ('c', 22)
      case NoCategoryMatches => ('c', 43)
  {
  }

  /** The outward state: loading while any source loads, otherwise failed if
      any source failed, otherwise empty (with a reason) or ready. */
  function FeedOutcome(news: SourceStatus, movies: SourceStatus, social: SourceStatus, f: FeedFilters): (v: FeedView)
    ensures v.Loading? <==> news.isLoading || movies.isLoading || social.isLoading
    ensures v.Failed? <==> !v.Loading? && (news.hasError || movies.hasError || social.hasError)
    ensures v.Empty? <==> !v.Loading? && !v.Failed? && VisibleContent(news.data, movies.data, social.data, f) == []
    ensures v.Empty? ==> v.reason == EmptyReasonFor(f)
    ensures v.Ready? ==> v.items == VisibleContent(news.data, movies.data, social.data, f) && v.items != []
  {
    var items := VisibleContent(news.data, movies.data, social.data, f);
    if news.isLoading || movies.isLoading || social.isLoading then Loading
    else if news.hasError || movies.hasError || social.hasError then Failed
    else if |items| == 0 then Empty(EmptyReasonFor(f))
    else Ready(items)
  }

  /** "No categories selected" is shown only when no stage could have removed
      anything: every source delivered zero items. */
  lemma NoCategoriesMessageMeansNoData(news: SourceStatus, movies: SourceStatus, social: SourceStatus, f: FeedFilters)
    requires FeedOutcome(news, movies, social, f) == Empty(NoCategoriesSelected)
    ensures Combined(news.data, movies.data, social.data) == []
  {
    var pool := Combined(news.data, movies.data, social.data);
    FilterKeepsAll(pool, (c: Content) => Visible(c, f));
  }

  /** "No favorites yet" is shown whenever favorites-only is on, no favorite
      exists and every source has settled without error. */
  lemma NoFavoritesMessageWhenFavoritesEmpty(news: SourceStatus, movies: SourceStatus, social: SourceStatus, f: FeedFilters)
    requires f.showFavoritesOnly && f.favoriteIds == []
    requires !news.isLoading && !movies.isLoading && !social.isLoading
    requires !news.hasError && !movies.hasError && !social.hasError
    ensures FeedOutcome(news, movies, social, f) == Empty(NoFavoritesYet)
  {
    FavoritesOnlyWithoutFavoritesIsEmpty(news.data, movies.data, social.data, f);
  }

  /** The category the news query asks for: the first selected one, or
      technology when none is selected. */
  function PrimaryCategory(selected: seq<ContentCategory>): (c: ContentCategory)
    ensures |selected| > 0 ==> c == selected[0] && c in selected
    ensures |selected| == 0 ==> c == Technology
  {
    if |selected| > 0 then selected[0] else Technology
  }

  /** "Clear all": toggles every category selected when the button is
      pressed, once each and in order. Each toggle removes the head of what
      is left, so the list always ends up empty, duplicates included. */
  method ClearAllFilters(prefs: PreferencesStore)
    modifies prefs
    ensures prefs.categories == []
    ensures prefs.State() == old(prefs.State()).(categories := [])
    ensures prefs.persisted == if prefs.inBrowser && |old(prefs.categories)| > 0
      then Some(SnapshotOf(prefs.State())) else old(prefs.persisted)
    ensures prefs.themeDark == old(prefs.themeDark)
  {
    var selected := prefs.categories;
    for i := 0 to |selected|
      invariant prefs.categories == selected[i..]
      invariant prefs.State() == old(prefs.State()).(categories := selected[i..])
      invariant prefs.persisted == if prefs.inBrowser && i > 0
        then Some(SnapshotOf(prefs.State())) else old(prefs.persisted)
      invariant prefs.themeDark == old(prefs.themeDark)
    {
      assert IndexOf(selected[i..], selected[i]) == 0;
      prefs.ToggleCategory(selected[i]);
      assert selected[i..][1..] == selected[i + 1..];
    }
  }
}
