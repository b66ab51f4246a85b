/** The shared content model: one record for every item of the feed, whatever
    provider it came from. The fields every item has are the record's own; the
    fields that depend on the item's type live in `details`, whose constructor
    is the item's type tag, so the tag decides which extra fields exist. */
module ContentModel {

  datatype Option<T> = None | Some(value: T)

  /** The `type` tag of an item. */
  datatype ContentType = News | Recommendation | Social

  /** The six topical categories an item may be tagged with. */
  datatype ContentCategory = Technology | Business | Entertainment | Sports | Health | Science

  datatype MediaType = Movie | Tv

  datatype Platform = Twitter | Instagram | Linkedin

  /** Fields only news items have. */
  datatype NewsFields = NewsFields(source: string, author: Option<string>)

  /** Fields only recommendations have; the rating is kept as an opaque optional number. */
  datatype RecommendationFields = RecommendationFields(rating: Option<real>, mediaType: MediaType)

  /** Fields only social posts have: the author is required here. */
  datatype SocialFields = SocialFields(platform: Platform, author: string, likes: int, comments: int)

  /** The variant-specific part of an item; its constructor is the item's type tag. */
  datatype Details =
    | NewsDetails(news: NewsFields)
    | RecommendationDetails(recommendation: RecommendationFields)
    | SocialDetails(social: SocialFields)

  /** A content item: `id`, `title`, `description` and `publishedAt` are
      required, `imageUrl`, `url` and `category` are optional. */
  datatype Content = Content(
    id: string,
    title: string,
    description: string,
    imageUrl: Option<string>,
    url: Option<string>,
    publishedAt: string,
    category: Option<ContentCategory>,
    details: Details)
  {
    /** The item's type tag, read off the variant of its details. */
    function Type(): (t: ContentType)
      ensures t == News <==> details.NewsDetails?
      ensures t == Recommendation <==> details.RecommendationDetails?
      ensures t == Social <==> details.SocialDetails?
    {
      match details
      case NewsDetails(_) => News
      case RecommendationDetails(_) => Recommendation
      case SocialDetails(_) => Social
    }
  }

  /** Every category, in declaration order. */
  const AllCategories: seq<ContentCategory> :=
    [Technology, Business, Entertainment, Sports, Health, Science]

  /** There are exactly six categories and `AllCategories` lists each once. */
  lemma CategoriesAreSix(c: ContentCategory)
    ensures c in AllCategories
    ensures |AllCategories| == 6
    ensures forall i, j :: 0 <= i < j < |AllCategories| ==> AllCategories[i] != AllCategories[j]
  {
  }

  /** The media type as it appears in provider paths and ids: "movie" or "tv". */
  function MediaTypeName(m: MediaType): (s: string)
    ensures s != "" && '-' !in s && '/' !in s
  {
    match m
    case Movie => "movie"
    case Tv => "tv"
  }

  /** The platform name as the source spells it. */
  function PlatformName(p: Platform): string
  {
    match p
    case Twitter => "twitter"
    case Instagram => "instagram"
    case Linkedin => "linkedin"
  }
}
