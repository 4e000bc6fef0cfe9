/** The article service: the paginated listing, the article detail with the
    caller's interaction flags, and the article context handed to the chat. */
module ArticleService {
  import opened Wrappers
  import opened ArticleModel
  import opened ArticleSchema

  /** What the listing asks of the article repository. */
  datatype ListQuery = ListQuery(skip: int, limit: int, sortBy: SortField, order: SortOrder)

  /** The repository query for a page: skip the items of the pages before it, take one page. */
  function ListQueryFor(params: ArticleFilterParams): (q: ListQuery)
    ensures q.limit == params.size && q.sortBy == params.sortBy && q.order == params.order
    ensures ValidFilterParams(params) ==> 0 <= q.skip && q.skip + q.limit == params.page * params.size
  {
    ListQuery((params.page - 1) * params.size, params.size, params.sortBy, params.order)
  }

  /** `math.ceil(total / size)` when `size > 0`, else 0, in exact integer arithmetic:
      the smallest number of pages of `size` items that hold `total` items. */
  function TotalPages(total: int, size: int): (pages: int)
    ensures size <= 0 ==> pages == 0
    ensures size > 0 ==> (pages - 1) * size < total <= pages * size
  {
    if size > 0 then CeilDiv(total, size) else 0
  }

  function CeilDiv(a: int, b: int): (c: int)
    requires b > 0
    ensures (c - 1) * b < a <= c * b
  {
    var q := (-a) / b;
    var r := (-a) % b;
    assert -a == q * b + r && 0 <= r < b;
    assert -q * b == a + r;
    assert (-q - 1) * b == a + r - b;
    -q
  }

  /** For a non-empty collection, the page count is at least one, and every item
      index falls on a page numbered 1..`total_pages`. */
  lemma TotalPagesCoverItems(total: int, size: int, k: int)
    requires size > 0 && 0 <= k < total
    ensures TotalPages(total, size) >= 1
    ensures 1 <= k / size + 1 <= TotalPages(total, size)
  {
    var pages := TotalPages(total, size);
    var p := k / size;
    assert p * size <= k;
    assert p * size < pages * size;
  }

  /** Any page from 1 to `total_pages` starts inside the collection: the
      repository is never asked to skip past the last item. */
  lemma {:induction false} PageInRangeStartsInside(params: ArticleFilterParams, total: int)
    requires ValidFilterParams(params)
    requires params.page <= TotalPages(total, params.size)
    ensures ListQueryFor(params).skip < total
  {
    var pages := TotalPages(total, params.size);
    MulMonotone(params.page - 1, pages - 1, params.size);
  }

  lemma MulMonotone(a: int, b: int, n: nat)
    requires a <= b
    ensures a * n <= b * n
  {
  }

  /** An empty collection has no pages. */
  lemma NoItemsNoPages(size: int)
    ensures TotalPages(0, size) == 0
  {
    if size > 0 {
      var pages := TotalPages(0, size);
      assert (pages - 1) * size < 0 <= pages * size;
    }
  }

  /** `get_article_list`: one query to the repository (rows and total count), the rows
      turned into response records, the request's page and size echoed. */
  function GetArticleList(params: ArticleFilterParams, repo: ListQuery -> (seq<ArticleRow>, int)): (r: ArticleListResponse)
    ensures var (rows, total) := repo(ListQueryFor(params));
      && r.page == params.page && r.size == params.size && r.total == total
      && |r.items| == |rows|
      && (forall i :: 0 <= i < |rows| ==> r.items[i] == SchemaFromRow(rows[i]))
      && r.totalPages == TotalPages(total, params.size)
  {
    var (rows, total) := repo(ListQueryFor(params));
    var items := seq(|rows|, i requires 0 <= i < |rows| => SchemaFromRow(rows[i]));
    ArticleListResponse(items, total, params.page, params.size, TotalPages(total, params.size))
  }

  datatype HttpError = HttpError(status: int, detail: string)

  const NotFound := HttpError(404, "Article not found")

  datatype Result<T> = Ok(value: T) | Err(error: HttpError)

  /** What the interaction service reports for a user and an article. */
  datatype InteractionStatus = InteractionStatus(isFavorited: bool, isReadLater: bool)

  /** FastAPI's answer to an exception the handler does not catch. */
  const ServerError := HttpError(500, "Internal Server Error")

  /** `article_data`: the stored article's fields as `model_dump` gives them, the two
      per-user flags, and `favorites_count` when the dict holds one. */
  datatype DetailData = DetailData(article: Article, isFavorited: bool, isReadLater: bool, favoritesCount: Option<int>)

  /** `ArticleSchema.model_validate(article_data)`: validation fails when the database
      id is null or `favorites_count` is missing, both being required `int` fields;
      otherwise every field the schema declares is copied from the dict. */
  function DetailSchema(d: DetailData): (r: Option<ArticleSchema>)
    ensures r.Some? <==> d.article.id.Some? && d.favoritesCount.Some?
    ensures r.Some? ==> var a, v := d.article, r.value;
      && v.id == a.id.value && v.hnId == a.hnId && v.originalTitle == a.originalTitle
      && v.originalUrl == a.originalUrl && v.originalText == a.originalText && v.score == a.score
      && v.postedAt == a.postedAt && v.author == a.author && v.kind == a.kind
      && v.detailedAnalysis == a.detailedAnalysis && v.descendants == a.descendants
      && v.deleted == a.deleted && v.dead == a.dead
      && v.favoritesCount == d.favoritesCount.value
      && v.isFavorited == d.isFavorited && v.isReadLater == d.isReadLater
  {
    var a := d.article;
    if a.id.None? || d.favoritesCount.None? then None
    else Some(ArticleSchema(a.id.value, a.hnId, a.originalTitle, a.originalUrl, a.originalText, a.score,
                            a.postedAt, a.author, a.kind, a.detailedAnalysis, a.descendants,
                            d.favoritesCount.value, d.isFavorited, d.isReadLater, a.deleted, a.dead))
  }

  /** The flags merged into the article's data: false, then overwritten by the
      interaction status when a user id is given. */
  function MergedFlags(articleId: int, userId: Option<string>, status: (string, int) -> InteractionStatus): InteractionStatus {
    if Truthy(userId) then status(userId.value, articleId) else InteractionStatus(false, false)
  }

  /** The steps of `get_article_detail` with the `favorites_count` its data dict
      holds: 404 for a missing article; otherwise the article's fields with the flags
      false, overwritten by the interaction status only when a user id is given, then
      validated against the response schema, whose failure is a server error. */
  method Detail(articleId: int, userId: Option<string>, lookup: int -> Option<Article>,
                status: (string, int) -> InteractionStatus, favoritesCount: Option<int>) returns (r: Result<ArticleSchema>)
    ensures lookup(articleId).None? <==> r == Err(NotFound)
    ensures r.Ok? <==> lookup(articleId).Some? && lookup(articleId).value.id.Some? && favoritesCount.Some?
    ensures lookup(articleId).Some? && !r.Ok? ==> r == Err(ServerError)
    ensures r.Ok? ==> Some(r.value) == DetailSchema(DetailData(lookup(articleId).value,
      MergedFlags(articleId, userId, status).isFavorited, MergedFlags(articleId, userId, status).isReadLater, favoritesCount))
  {
    var article := lookup(articleId);
    if article.None? {
      return Err(NotFound);
    }
    var data := DetailData(article.value, false, false, favoritesCount);
    if Truthy(userId) {
      var s := status(userId.value, articleId);
      data := data.(isFavorited := s.isFavorited, isReadLater := s.isReadLater);
    }
    var schema := DetailSchema(data);
    r := match schema case Some(v) => Ok(v) case None => Err(ServerError);
  }

  /** `get_article_detail` as written: `model_dump` of a stored article holds no
      `favorites_count`, which the response schema requires, so every article that
      is found fails validation and the request ends in a server error. */
  method GetArticleDetailAsWritten(articleId: int, userId: Option<string>,
                                   lookup: int -> Option<Article>,
                                   status: (string, int) -> InteractionStatus) returns (r: Result<ArticleSchema>)
    ensures lookup(articleId).None? ==> r == Err(NotFound)
    ensures lookup(articleId).Some? ==> r == Err(ServerError)
  {
    r := Detail(articleId, userId, lookup, status, None);
  }

  /** The favourites count a detail carries when the stored article does not hold one. */
  const DefaultFavoritesCount := 0

  /** `get_article_detail` with `favorites_count` given its default, as the per-user
      flags beside it are: 404 for a missing article; otherwise the article's fields
      with the flags false, overwritten by the interaction status only when a user id
      is given. An article without its database id still fails validation. */
  method GetArticleDetail(articleId: int, userId: Option<string>,
                          lookup: int -> Option<Article>,
                          status: (string, int) -> InteractionStatus) returns (r: Result<ArticleSchema>)
    ensures lookup(articleId).None? <==> r == Err(NotFound)
    ensures r == Err(ServerError) <==> lookup(articleId).Some? && lookup(articleId).value.id.None?
    ensures r.Ok? <==> lookup(articleId).Some? && lookup(articleId).value.id.Some?
    ensures r.Ok? ==> Some(r.value) == DetailSchema(
      DetailData(lookup(articleId).value, r.value.isFavorited, r.value.isReadLater, Some(DefaultFavoritesCount)))
    ensures r.Ok? && !Truthy(userId) ==> !r.value.isFavorited && !r.value.isReadLater
    ensures r.Ok? && Truthy(userId) ==>
              r.value.isFavorited == status(userId.value, articleId).isFavorited
              && r.value.isReadLater == status(userId.value, articleId).isReadLater
  {
    r := Detail(articleId, userId, lookup, status, Some(DefaultFavoritesCount));
  }

  /** A found article with its id: the corrected detail returns it with the merged
      flags, the detail as written fails with a server error. */
  method DetailLosesArticle(articleId: int, userId: Option<string>,
                            lookup: int -> Option<Article>,
                            status: (string, int) -> InteractionStatus)
    returns (corrected: Result<ArticleSchema>, asWritten: Result<ArticleSchema>)
    requires lookup(articleId).Some? && lookup(articleId).value.id.Some?
    ensures corrected.Ok? && corrected.value.id == lookup(articleId).value.id.value
    ensures corrected.value.isFavorited == MergedFlags(articleId, userId, status).isFavorited
    ensures corrected.value.isReadLater == MergedFlags(articleId, userId, status).isReadLater
    ensures asWritten == Err(ServerError)
  {
    corrected := GetArticleDetail(articleId, userId, lookup, status);
    asWritten := GetArticleDetailAsWritten(articleId, userId, lookup, status);
  }

  const NoOriginalText := "(No original text)"
  const NoRawContent := "(No raw content)"
  const NoDetailedAnalysis := "(No detailed analysis)"

  /** The four text fields the article chat prompt is filled with. */
  datatype ArticleContext = ArticleContext(originalTitle: string, originalText: string,
                                           rawContent: string, detailedAnalysis: string)

  /** `get_article_context`: 404 for a missing article; each absent or empty field is
      replaced by its placeholder, so no field but the title is ever empty. The JSON
      serialisation of the analysis is a parameter. */
  function GetArticleContext(articleId: int, lookup: int -> Option<Article>,
                             toJson: AITranslatedResult -> string): (r: Result<ArticleContext>)
    ensures lookup(articleId).None? <==> r.Err?
    ensures r.Err? ==> r.error == NotFound
    ensures r.Ok? ==> var a := lookup(articleId).value;
      && r.value.originalTitle == a.originalTitle
      && r.value.originalText == (if Truthy(a.originalText) then a.originalText.value else NoOriginalText)
      && r.value.rawContent == (if a.rawContent != "" then a.rawContent else NoRawContent)
      && r.value.detailedAnalysis == (if a.detailedAnalysis.Some? then toJson(a.detailedAnalysis.value) else NoDetailedAnalysis)
    ensures r.Ok? ==> r.value.originalText != "" && r.value.rawContent != ""
  {
    match lookup(articleId)
    case None => Err(NotFound)
    case Some(a) =>
      Ok(ArticleContext(
        a.originalTitle,
        if Truthy(a.originalText) then a.originalText.value else NoOriginalText,
        if a.rawContent != "" then a.rawContent else NoRawContent,
        if a.detailedAnalysis.Some? then toJson(a.detailedAnalysis.value) else NoDetailedAnalysis))
  }
}
