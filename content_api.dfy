/** The normalizers: the `transformResponse` bodies that turn a NewsAPI
    headline payload and a TMDB popular-titles payload into content items.
    Transport, caching and credentials are not part of this model; the
    clock, which the normalizers read once per item, is a parameter. */
module ContentApi {
  import opened ContentModel
  import opened Text

  datatype ArticleSource = ArticleSource(id: Option<string>, name: string)

  /** One NewsAPI article; `None` stands for JSON `null`. */
  datatype Article = Article(
    source: ArticleSource,
    author: Option<string>,
    title: string,
    description: Option<string>,
    url: string,
    urlToImage: Option<string>,
    publishedAt: string,
    content: string)

  datatype NewsApiResponse = NewsApiResponse(status: string, totalResults: int, articles: seq<Article>)

  /** One TMDB result; `None` stands for a missing field or JSON `null`. */
  datatype TmdbResult = TmdbResult(
    id: nat,
    title: Option<string>,
    name: Option<string>,
    overview: string,
    posterPath: Option<string>,
    backdropPath: Option<string>,
    releaseDate: Option<string>,
    firstAirDate: Option<string>,
    voteAverage: real,
    mediaType: Option<MediaType>)

  datatype TmdbResponse = TmdbResponse(page: int, results: seq<TmdbResult>)

  const NoDescription := "No description available"
  const Untitled := "Untitled"
  const TmdbPosterBase := "https://image.tmdb.org/t/p/w500"
  const TmdbSiteBase := "https://www.themoviedb.org/"
  /** At most this many TMDB results are kept, whatever the page size. */
  const RecommendationLimit := 10

  /** JavaScript truthiness of an optional string: present and non-empty. */
  predicate Truthy(s: Option<string>)
  {
    s.Some? && s.value != ""
  }

  /** `a || b` on optional strings. */
  function Or(a: Option<string>, b: Option<string>): Option<string>
  {
    if Truthy(a) then a else b
  }

  /** `a || fallback` with a string fallback. */
  function OrElse(a: Option<string>, fallback: string): string
  {
    if Truthy(a) then a.value else fallback
  }

  /** `a || undefined`: an empty string becomes absent. */
  function OrUndefined(a: Option<string>): Option<string>
  {
    if Truthy(a) then a else None
  }

  function Min(a: int, b: int): int
  {
    if a <= b then a else b
  }

  /** `news-${source name}-${index}-${timestamp}`. */
  function NewsId(sourceName: string, index: nat, timestamp: nat): string
  {
    "news-" + sourceName + "-" + NatToString(index) + "-" + NatToString(timestamp)
  }

  /** The item built for the article at position `index`, with the clock
      reading `timestamp` taken while building it. */
  function NormalizeArticle(a: Article, index: nat, timestamp: nat): (c: Content)
    ensures c.Type() == News && c.category == None
    ensures c.id == NewsId(a.source.name, index, timestamp)
    ensures c.title == a.title && c.url == Some(a.url) && c.publishedAt == a.publishedAt
    ensures c.details.news.source == a.source.name
    ensures c.description != ""
    ensures Truthy(a.description) ==> c.description == a.description.value
    ensures !Truthy(a.description) ==> c.description == NoDescription
    ensures c.imageUrl.Some? <==> Truthy(a.urlToImage)
    ensures c.imageUrl.Some? ==> c.imageUrl == a.urlToImage
    ensures c.details.news.author.Some? <==> Truthy(a.author)
    ensures c.details.news.author.Some? ==> c.details.news.author == a.author
  {
    Content(
      NewsId(a.source.name, index, timestamp),
      a.title,
      OrElse(a.description, NoDescription),
      OrUndefined(a.urlToImage),
      Some(a.url),
      a.publishedAt,
      None,
      NewsDetails(NewsFields(a.source.name, OrUndefined(a.author))))
  }

  /** `getNews.transformResponse`: one news item per article, in article order.
      `clock(i)` is what `Date.now()` returns while article `i` is mapped. */
  function NormalizeNews(response: NewsApiResponse, clock: nat -> nat): (items: seq<Content>)
    ensures |items| == |response.articles|
    ensures forall i :: 0 <= i < |items| ==>
      && items[i].Type() == News
      && items[i].category == None
      && items[i].title == response.articles[i].title
      && items[i].url == Some(response.articles[i].url)
      && items[i].publishedAt == response.articles[i].publishedAt
    ensures forall i :: 0 <= i < |items| ==> items[i] == NormalizeArticle(response.articles[i], i, clock(i))
  {
    var items := seq(|response.articles|, i requires 0 <= i < |response.articles| =>
      NormalizeArticle(response.articles[i], i, clock(i)));
    assert forall i :: 0 <= i < |items| ==> items[i] == NormalizeArticle(response.articles[i], i, clock(i));
    items
  }

  /** News ids are pairwise distinct within one batch, whatever the source
      names and clock readings are: the position makes the difference. */
  lemma NewsIdsDistinct(response: NewsApiResponse, clock: nat -> nat, i: nat, j: nat)
    requires i < j < |response.articles|
    ensures NormalizeNews(response, clock)[i].id != NormalizeNews(response, clock)[j].id
  {
    var items := NormalizeNews(response, clock);
    if items[i].id == items[j].id {
      var ni, nj := response.articles[i].source.name, response.articles[j].source.name;
      var headI := "news-" + ni + "-" + NatToString(i);
      var headJ := "news-" + nj + "-" + NatToString(j);
      LastDashSplitsUniquely(headI, NatToString(clock(i)), headJ, NatToString(clock(j)));
      LastDashSplitsUniquely("news-" + ni, NatToString(i), "news-" + nj, NatToString(j));
      NatToStringInjective(i, j);
      assert false;
    }
  }

  /** `tmdb-${type}-${id}`: built from the request and the TMDB id only. */
  function RecommendationId(t: MediaType, tmdbId: nat): string
  {
    "tmdb-" + MediaTypeName(t) + "-" + NatToString(tmdbId)
  }

  /** The TMDB page of the title. */
  function RecommendationUrl(t: MediaType, tmdbId: nat): string
  {
    TmdbSiteBase + MediaTypeName(t) + "/" + NatToString(tmdbId)
  }

  /** The item built for one TMDB result requested as media type `t`;
      `nowIso` is the ISO timestamp read while building it. */
  function NormalizeResult(item: TmdbResult, t: MediaType, nowIso: string): (c: Content)
    ensures c.Type() == Recommendation && c.category == None
    ensures c.details.recommendation.mediaType == t
    ensures c.details.recommendation.rating == Some(item.voteAverage)
    ensures c.id == RecommendationId(t, item.id) && c.url == Some(RecommendationUrl(t, item.id))
    ensures c.title != ""
    ensures Truthy(item.title) ==> c.title == item.title.value
    ensures !Truthy(item.title) && Truthy(item.name) ==> c.title == item.name.value
    ensures !Truthy(item.title) && !Truthy(item.name) ==> c.title == Untitled
    ensures c.description != ""
    ensures item.overview != "" ==> c.description == item.overview
    ensures item.overview == "" ==> c.description == NoDescription
    ensures Truthy(item.posterPath) ==> c.imageUrl == Some(TmdbPosterBase + item.posterPath.value)
    ensures !Truthy(item.posterPath) ==> c.imageUrl == None
    ensures Truthy(item.releaseDate) ==> c.publishedAt == item.releaseDate.value
    ensures !Truthy(item.releaseDate) && Truthy(item.firstAirDate) ==> c.publishedAt == item.firstAirDate.value
    ensures !Truthy(item.releaseDate) && !Truthy(item.firstAirDate) ==> c.publishedAt == nowIso
  {
    Content(
      RecommendationId(t, item.id),
      OrElse(Or(item.title, item.name), Untitled),
      if item.overview != "" then item.overview else NoDescription,
      if Truthy(item.posterPath) then Some(TmdbPosterBase + item.posterPath.value) else None,
      Some(RecommendationUrl(t, item.id)),
      OrElse(Or(item.releaseDate, item.firstAirDate), nowIso),
      None,
      RecommendationDetails(RecommendationFields(Some(item.voteAverage), t)))
  }

  /** `getRecommendations.transformResponse`: the first ten results, in order.
      `clockIso(i)` is what `new Date().toISOString()` returns while result
      `i` is mapped. */
  function NormalizeRecommendations(response: TmdbResponse, t: MediaType, clockIso: nat -> string): (items: seq<Content>)
    ensures |items| == Min(RecommendationLimit, |response.results|)
    ensures forall i :: 0 <= i < |items| ==>
      && items[i].Type() == Recommendation
      && items[i].category == None
      && items[i].details.recommendation.mediaType == t
      && items[i].id == RecommendationId(t, response.results[i].id)
    ensures forall i :: 0 <= i < |items| ==> items[i] == NormalizeResult(response.results[i], t, clockIso(i))
  {
    var kept := response.results[..Min(RecommendationLimit, |response.results|)];
    var items := seq(|kept|, i requires 0 <= i < |kept| => NormalizeResult(kept[i], t, clockIso(i)));
    assert forall i :: 0 <= i < |items| ==> items[i] == NormalizeResult(response.results[i], t, clockIso(i));
    items
  }

  /** Recommendation ids and urls do not depend on the clock: normalizing the
      same payload twice gives the same ids, and the same items whenever the
      results carry a date. */
  lemma RecommendationsIgnoreClock(response: TmdbResponse, t: MediaType, c1: nat -> string, c2: nat -> string, i: nat)
    requires i < |NormalizeRecommendations(response, t, c1)|
    ensures var a, b := NormalizeRecommendations(response, t, c1)[i], NormalizeRecommendations(response, t, c2)[i];
      a.id == b.id && a.url == b.url && a.title == b.title
      && (Truthy(response.results[i].releaseDate) || Truthy(response.results[i].firstAirDate) ==> a == b)
  {
    var item := response.results[i];
    assert NormalizeRecommendations(response, t, c1)[i] == NormalizeResult(item, t, c1(i));
    assert NormalizeRecommendations(response, t, c2)[i] == NormalizeResult(item, t, c2(i));
  }

  /** Two recommendations of one batch share an id exactly when their TMDB ids agree. */
  lemma RecommendationIdsMatchTmdbIds(response: TmdbResponse, t: MediaType, clockIso: nat -> string, i: nat, j: nat)
    requires i < |NormalizeRecommendations(response, t, clockIso)|
    requires j < |NormalizeRecommendations(response, t, clockIso)|
    ensures NormalizeRecommendations(response, t, clockIso)[i].id == NormalizeRecommendations(response, t, clockIso)[j].id
      <==> response.results[i].id == response.results[j].id
  {
    var items := NormalizeRecommendations(response, t, clockIso);
    if items[i].id == items[j].id {
      var prefix := "tmdb-" + MediaTypeName(t) + "-";
      var di, dj := NatToString(response.results[i].id), NatToString(response.results[j].id);
      assert items[i].id == prefix + di && items[j].id == prefix + dj;
      assert di == items[i].id[|prefix|..] == dj;
      NatToStringInjective(response.results[i].id, response.results[j].id);
    }
  }
}
