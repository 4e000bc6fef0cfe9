/** Request and response shapes of the article listing: the sort enums, the
    list query parameters with their bounds and defaults, and the article
    response record with its flag defaults. */
module ArticleSchema {
  import opened Wrappers
  import opened ArticleModel

  datatype SortField = PostedAt | Score | AiScore {
    /** The wire value of the enum member. */
    function Value(): string {
      match this
      case PostedAt => "posted_at"
      case Score => "score"
      case AiScore => "ai_score"
    }
  }

  datatype SortOrder = Desc | Asc {
    function Value(): string {
      match this
      case Desc => "desc"
      case Asc => "asc"
    }
  }

  /** Enum coercion of a wire value: `None` is a validation error. */
  function ParseSortField(s: string): (r: Option<SortField>)
    ensures r.Some? ==> r.value.Value() == s
    ensures s in {"posted_at", "score", "ai_score"} <==> r.Some?
  {
    if s == "posted_at" then Some(PostedAt)
    else if s == "score" then Some(Score)
    else if s == "ai_score" then Some(AiScore)
    else None
  }

  function ParseSortOrder(s: string): (r: Option<SortOrder>)
    ensures r.Some? ==> r.value.Value() == s
    ensures s in {"desc", "asc"} <==> r.Some?
  {
    if s == "desc" then Some(Desc) else if s == "asc" then Some(Asc) else None
  }

  /** Every member is recovered from its wire value. */
  lemma SortValuesRoundTrip(f: SortField, o: SortOrder)
    ensures ParseSortField(f.Value()) == Some(f)
    ensures ParseSortOrder(o.Value()) == Some(o)
  {
  }

  const DefaultPage: int := 1
  const DefaultSize: int := 20
  const MinSize: int := 1
  const MaxSize: int := 100

  datatype ArticleFilterParams = ArticleFilterParams(page: int, size: int, sortBy: SortField, order: SortOrder)

  /** The bounds the parameter schema enforces. */
  predicate ValidFilterParams(p: ArticleFilterParams) {
    p.page >= 1 && MinSize <= p.size <= MaxSize
  }

  /** Validation of the query parameters: absent ones take their defaults; a bound
      violation or an unknown enum value is a validation error (`None`). */
  function ParseFilterParams(page: Option<int>, size: Option<int>,
                             sortBy: Option<string>, order: Option<string>): (r: Option<ArticleFilterParams>)
    ensures r.Some? ==> ValidFilterParams(r.value)
    ensures r.Some? ==> r.value.page == page.GetOr(DefaultPage) && r.value.size == size.GetOr(DefaultSize)
    ensures r.Some? <==> page.GetOr(DefaultPage) >= 1 && MinSize <= size.GetOr(DefaultSize) <= MaxSize
                         && (sortBy.Some? ==> ParseSortField(sortBy.value).Some?)
                         && (order.Some? ==> ParseSortOrder(order.value).Some?)
    ensures r.Some? && sortBy.None? ==> r.value.sortBy == PostedAt
    ensures r.Some? && order.None? ==> r.value.order == Desc
  {
    var p := page.GetOr(DefaultPage);
    var s := size.GetOr(DefaultSize);
    var f := if sortBy.Some? then ParseSortField(sortBy.value) else Some(PostedAt);
    var o := if order.Some? then ParseSortOrder(order.value) else Some(Desc);
    if p >= 1 && MinSize <= s <= MaxSize && f.Some? && o.Some?
    then Some(ArticleFilterParams(p, s, f.value, o.value))
    else None
  }

  /** With no parameters at all the listing asks for page 1 of 20, newest first. */
  lemma DefaultFilterParams()
    ensures ParseFilterParams(None, None, None, None) == Some(ArticleFilterParams(1, 20, PostedAt, Desc))
  {
  }

  /** The article as returned to clients. */
  datatype ArticleSchema = ArticleSchema(
    id: int,
    hnId: int,
    originalTitle: string,
    originalUrl: Option<string>,
    originalText: Option<string>,
    score: int,
    postedAt: string,
    author: Option<string>,
    kind: string,
    detailedAnalysis: Option<AITranslatedResult>,
    descendants: Option<int>,
    favoritesCount: int,
    isFavorited: bool,
    isReadLater: bool,
    deleted: Option<bool>,
    dead: Option<bool>)

  /** A stored article row as read from the database; a `None` flag is a column
      absent from the row (an `Option<Option<bool>>` flag distinguishes absent
      from an explicit null). */
  datatype ArticleRow = ArticleRow(
    id: int,
    hnId: int,
    originalTitle: string,
    originalUrl: Option<string>,
    originalText: Option<string>,
    score: int,
    postedAt: string,
    author: Option<string>,
    kind: string,
    detailedAnalysis: Option<AITranslatedResult>,
    descendants: Option<int>,
    favoritesCount: int,
    isFavorited: Option<bool>,
    isReadLater: Option<bool>,
    deleted: Option<Option<bool>>,
    dead: Option<Option<bool>>)

  /** `ArticleSchema.model_validate(row)`: flags absent from the row default to false. */
  function SchemaFromRow(row: ArticleRow): (a: ArticleSchema)
    ensures row.isFavorited.None? ==> !a.isFavorited
    ensures row.isReadLater.None? ==> !a.isReadLater
    ensures row.deleted.None? ==> a.deleted == Some(false)
    ensures row.dead.None? ==> a.dead == Some(false)
    ensures row.isFavorited.Some? ==> a.isFavorited == row.isFavorited.value
    ensures row.isReadLater.Some? ==> a.isReadLater == row.isReadLater.value
    ensures row.deleted.Some? ==> a.deleted == row.deleted.value
    ensures row.dead.Some? ==> a.dead == row.dead.value
    ensures a.id == row.id && a.hnId == row.hnId && a.favoritesCount == row.favoritesCount
    ensures a.originalTitle == row.originalTitle && a.originalUrl == row.originalUrl
            && a.originalText == row.originalText && a.score == row.score && a.postedAt == row.postedAt
            && a.author == row.author && a.kind == row.kind && a.detailedAnalysis == row.detailedAnalysis
            && a.descendants == row.descendants
  {
    ArticleSchema(row.id, row.hnId, row.originalTitle, row.originalUrl, row.originalText, row.score,
                  row.postedAt, row.author, row.kind, row.detailedAnalysis, row.descendants, row.favoritesCount,
                  row.isFavorited.GetOr(false), row.isReadLater.GetOr(false),
                  row.deleted.GetOr(Some(false)), row.dead.GetOr(Some(false)))
  }

  datatype ArticleListResponse = ArticleListResponse(
    items: seq<ArticleSchema>, total: int, page: int, size: int, totalPages: int)
}
