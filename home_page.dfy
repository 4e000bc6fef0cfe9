/** The home page's infinite scroll: which page is asked for first, how each page
    is asked for, and which page follows the last one received. */
module HomePage {
  import opened Wrappers
  import opened ArticleSchema
  import ArticleService

  const InitialPageParam: int := 1
  const PageSize: int := 12

  /** The listing request for a page: twelve articles, newest post first. */
  function PageRequest(pageParam: int): (p: ArticleFilterParams)
    ensures p.page == pageParam && p.size == PageSize && p.sortBy == PostedAt && p.order == Desc
    ensures ValidFilterParams(p) <==> pageParam >= 1
  {
    ArticleFilterParams(pageParam, PageSize, PostedAt, Desc)
  }

  /** `getNextPageParam` on the last page received: the following page while there is
      one, otherwise none (the scroll stops). */
  function NextPageParam(page: int, totalPages: int): (r: Option<int>)
    ensures r.Some? <==> page < totalPages
    ensures r.Some? ==> r.value == page + 1
  {
    if page < totalPages then Some(page + 1) else None
  }

  /** The pages requested from `page` on while the total page count stays `totalPages`
      (the server echoes the requested page). */
  function PagesFrom(page: int, totalPages: int): seq<int>
    decreases totalPages - page
  {
    match NextPageParam(page, totalPages)
    case None => [page]
    case Some(next) => [page] + PagesFrom(next, totalPages)
  }

  lemma {:induction false} PagesFromRange(page: int, totalPages: int)
    requires page <= totalPages
    ensures var ps := PagesFrom(page, totalPages);
      |ps| == totalPages - page + 1 && forall i :: 0 <= i < |ps| ==> ps[i] == page + i
    decreases totalPages - page
  {
    if page < totalPages {
      PagesFromRange(page + 1, totalPages);
    }
  }

  /** Starting from the first page, the scroll asks for exactly the pages 1 to
      `totalPages` in order and stops; with no pages at all it asks for page 1 only. */
  lemma {:induction false} ScrollVisitsEveryPage(totalPages: int)
    ensures totalPages >= 1 ==> var ps := PagesFrom(InitialPageParam, totalPages);
      |ps| == totalPages && forall i :: 0 <= i < |ps| ==> ps[i] == i + 1
    ensures totalPages < 1 ==> PagesFrom(InitialPageParam, totalPages) == [InitialPageParam]
  {
    if totalPages >= 1 {
      PagesFromRange(InitialPageParam, totalPages);
    }
  }

  /** Against a collection of `total` articles, every page the scroll asks for is a
      valid request that starts inside the collection. */
  lemma ScrollStaysInside(total: int, i: nat)
    requires total > 0
    requires i < |PagesFrom(InitialPageParam, ArticleService.TotalPages(total, PageSize))|
    ensures var tp := ArticleService.TotalPages(total, PageSize);
      var request := PageRequest(PagesFrom(InitialPageParam, tp)[i]);
      ValidFilterParams(request) && ArticleService.ListQueryFor(request).skip < total
  {
    var tp := ArticleService.TotalPages(total, PageSize);
    ArticleService.TotalPagesCoverItems(total, PageSize, 0);
    ScrollVisitsEveryPage(tp);
    var request := PageRequest(PagesFrom(InitialPageParam, tp)[i]);
    ArticleService.PageInRangeStartsInside(request, total);
  }
}
