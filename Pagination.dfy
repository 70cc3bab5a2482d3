/**
 * The metadata half of `search`: fetch the start page, clamp the page count,
 * then fetch the following pages one by one and append their records.
 */
module Pagination {
  import opened Wrappers
  import opened Strings
  import opened Request

  /**
   * One `get_photos` call as the loop sees it: the page for a page number and
   * a sort, or `None` when the response lacks the expected key. `Search`
   * builds it from the parameter map and the service's answer.
   */
  type Fetcher = (int, Option<string>) -> Option<Page>

  /**
   * The last page to fetch: the service's page count, lowered to
   * `start_page + max_pages` when a maximum is given and exceeded.
   */
  function ClampTotal(pages: int, startPage: int, maxPages: Option<int>): (total: int)
    ensures total <= pages
    ensures maxPages.Some? ==> total <= startPage + maxPages.value
    ensures maxPages.None? ==> total == pages
    ensures maxPages.Some? && pages <= startPage + maxPages.value ==> total == pages
    ensures maxPages.Some? && pages > startPage + maxPages.value ==> total == startPage + maxPages.value
  {
    if maxPages.Some? && pages > startPage + maxPages.value then startPage + maxPages.value else pages
  }

  /** The page numbers `lo, lo + 1, ..., hi`, empty when `hi < lo`. */
  function PageRange(lo: int, hi: int): (r: seq<int>)
    ensures |r| == if hi < lo then 0 else hi - lo + 1
    ensures forall i :: 0 <= i < |r| ==> r[i] == lo + i
    decreases hi - lo
  {
    if hi < lo then [] else PageRange(lo, hi - 1) + [hi]
  }

  /** The records of the pages after the start page, or the first page that came back empty-handed. */
  datatype Collected = Done(photos: seq<Record>) | FailedAt(page: int)

  function Prepend(photos: seq<Record>, c: Collected): Collected
  {
    match c
    case Done(rest) => Done(photos + rest)
    case FailedAt(p) => c
  }

  /**
   * The loop from `current` up to `total`: each turn fetches the next page
   * with the default sort and appends its records; a page the service does
   * not answer stops the run (indexing `None` raises).
   */
  function CollectFrom(fetch: Fetcher, current: int, total: int): (c: Collected)
    ensures c.FailedAt? ==> current < c.page <= total
    decreases total - current
  {
    if current >= total then Done([])
    else
      match fetch(current + 1, DefaultSort)
      case None => FailedAt(current + 1)
      case Some(page) => Prepend(page.photo, CollectFrom(fetch, current + 1, total))
  }

  /** How the metadata phase of a search ends. */
  datatype Outcome =
    | NullFirstPage                         // the first page had no response key
    | Aborted(failedPage: int)              // a later page had none, and the run raised
    | BadCall(page: int)                    // the later-page call itself raised
    | Fetched(total: int, photos: seq<Record>)

  /** The metadata phase as the pagination loop is evidently meant to run it. */
  function Paginated(fetch: Fetcher, sort: Option<string>, startPage: int, maxPages: Option<int>): Outcome
  {
    match fetch(startPage, sort)
    case None => NullFirstPage
    case Some(first) =>
      var total := ClampTotal(first.pages, startPage, maxPages);
      match CollectFrom(fetch, startPage, total)
      case FailedAt(p) => Aborted(p)
      case Done(rest) => Fetched(total, first.photo + rest)
  }

  /** The pages requested, in order, during a metadata phase that ended in `run`. */
  function RequestedPages(run: Outcome, startPage: int): seq<int>
  {
    match run
    case NullFirstPage => [startPage]
    case BadCall(_) => [startPage]
    case Aborted(p) => [startPage] + PageRange(startPage + 1, p)
    case Fetched(total, _) => [startPage] + PageRange(startPage + 1, total)
  }

  lemma PrependAssoc(a: seq<Record>, b: seq<Record>, c: Collected)
    ensures Prepend(a, Prepend(b, c)) == Prepend(a + b, c)
  {
    if c.Done? {
      assert a + (b + c.photos) == (a + b) + c.photos;
    }
  }

  /**
   * The pagination loop: request the start page, stop with a null marker if it
   * has no response key, clamp the total, then request pages
   * `start_page + 1 .. total` in turn, appending their records. The start page
   * is requested with the caller's `sort`; the later pages with the default
   * sort, as the loop's call passes none.
   */
  method Paginate(fetch: Fetcher, sort: Option<string>, startPage: int, maxPages: Option<int>)
    returns (requested: seq<int>, run: Outcome)
    ensures run == Paginated(fetch, sort, startPage, maxPages)
    ensures requested == RequestedPages(run, startPage)
  {
    requested := [startPage];
    var first := fetch(startPage, sort);
    if first.None? {
      return requested, NullFirstPage;
    }
    var total := ClampTotal(first.value.pages, startPage, maxPages);
    var photos := first.value.photo;
    var current := startPage;
    while current < total
      invariant startPage <= current
      invariant current <= total || current == startPage
      invariant requested == [startPage] + PageRange(startPage + 1, current)
      invariant Prepend(photos, CollectFrom(fetch, current, total))
             == Prepend(first.value.photo, CollectFrom(fetch, startPage, total))
      decreases total - current
    {
      current := current + 1;
      requested := requested + [current];
      var page := fetch(current, DefaultSort);
      if page.None? {
        run := Aborted(current);
        return;
      }
      PrependAssoc(photos, page.value.photo, CollectFrom(fetch, current, total));
      photos := photos + page.value.photo;
    }
    run := Fetched(total, photos);
  }

  /**
   * The pages of a completed run are requested once each, in ascending order:
   * the start page and then every page up to the clamped total; only the start
   * page when the total does not exceed it.
   */
  lemma FetchedPagesAscending(fetch: Fetcher, sort: Option<string>, startPage: int, maxPages: Option<int>)
    requires Paginated(fetch, sort, startPage, maxPages).Fetched?
    ensures var run := Paginated(fetch, sort, startPage, maxPages);
      var req := RequestedPages(run, startPage);
      && req[0] == startPage
      && (forall i, j :: 0 <= i < j < |req| ==> req[i] < req[j])
      && (run.total <= startPage ==> req == [startPage])
      && (run.total > startPage ==> |req| == run.total - startPage + 1 && req[|req| - 1] == run.total)
  {
  }

  /**
   * With a maximum of `m` pages and a service reporting at least
   * `start_page + m` pages, a completed run requests exactly `m + 1` pages.
   */
  lemma ClampedRunRequestsMaxPlusOne(fetch: Fetcher, sort: Option<string>, startPage: int, m: nat)
    requires Paginated(fetch, sort, startPage, Some(m)).Fetched?
    requires fetch(startPage, sort).value.pages >= startPage + m
    ensures |RequestedPages(Paginated(fetch, sort, startPage, Some(m)), startPage)| == m + 1
  {
  }

  /** The records of the pages `pages`, concatenated in order; `None` if one of them is unanswered. */
  function PhotosOfPages(fetch: Fetcher, pages: seq<int>): Option<seq<Record>>
    decreases |pages|
  {
    if pages == [] then Some([])
    else
      match fetch(pages[0], DefaultSort)
      case None => None
      case Some(page) =>
        match PhotosOfPages(fetch, pages[1..])
        case None => None
        case Some(rest) => Some(page.photo + rest)
  }

  /** The loop collects exactly the concatenation of the records of pages `current + 1 .. total`. */
  lemma {:induction false} CollectFromIsConcatenation(fetch: Fetcher, current: int, total: int)
    ensures CollectFrom(fetch, current, total).Done?
        <==> PhotosOfPages(fetch, PageRange(current + 1, total)).Some?
    ensures CollectFrom(fetch, current, total).Done?
        ==> CollectFrom(fetch, current, total).photos == PhotosOfPages(fetch, PageRange(current + 1, total)).value
    decreases total - current
  {
    var pages := PageRange(current + 1, total);
    if current < total {
      CollectFromIsConcatenation(fetch, current + 1, total);
      assert pages[0] == current + 1;
      assert pages[1..] == PageRange(current + 2, total);
    }
  }

  /**
   * A completed run's records are the start page's records followed by those
   * of every later requested page, in page order.
   */
  lemma FetchedRecordsInPageOrder(fetch: Fetcher, sort: Option<string>, startPage: int, maxPages: Option<int>)
    requires Paginated(fetch, sort, startPage, maxPages).Fetched?
    ensures var run := Paginated(fetch, sort, startPage, maxPages);
      var rest := PhotosOfPages(fetch, PageRange(startPage + 1, run.total));
      rest.Some? && run.photos == fetch(startPage, sort).value.photo + rest.value
  {
    var first := fetch(startPage, sort).value;
    CollectFromIsConcatenation(fetch, startPage, ClampTotal(first.pages, startPage, maxPages));
  }

  /**
   * The metadata phase as the loop's call is written: it passes `qps` as a
   * third positional argument as well as `page=`, so it raises before any
   * later page is requested.
   */
  function PaginatedAsWritten(fetch: Fetcher, sort: Option<string>, startPage: int, maxPages: Option<int>): Outcome
  {
    match fetch(startPage, sort)
    case None => NullFirstPage
    case Some(first) =>
      var total := ClampTotal(first.pages, startPage, maxPages);
      if total <= startPage then Fetched(total, first.photo)
      else if CallRaisesTypeError(3, LoopCallKeywords) then BadCall(startPage + 1)
      else Paginated(fetch, sort, startPage, maxPages)
  }

  /**
   * As written, every search whose clamped total exceeds the start page ends
   * in the raised call, with no later page requested and nothing cached; the
   * intended loop requests page `start_page + 1`. Both agree otherwise.
   */
  lemma AsWrittenFailsBeyondStartPage(fetch: Fetcher, sort: Option<string>, startPage: int, maxPages: Option<int>)
    ensures var first := fetch(startPage, sort);
      var asWritten := PaginatedAsWritten(fetch, sort, startPage, maxPages);
      var intended := Paginated(fetch, sort, startPage, maxPages);
      if first.Some? && ClampTotal(first.value.pages, startPage, maxPages) > startPage then
        && asWritten == BadCall(startPage + 1)
        && RequestedPages(asWritten, startPage) == [startPage]
        && !intended.BadCall?
        && |RequestedPages(intended, startPage)| >= 2
        && RequestedPages(intended, startPage)[1] == startPage + 1
      else asWritten == intended
  {
    LoopCallRaises();
    var first := fetch(startPage, sort);
    if first.Some? {
      var total := ClampTotal(first.value.pages, startPage, maxPages);
      if total <= startPage {
        assert CollectFrom(fetch, startPage, total) == Done([]);
        assert first.value.photo + [] == first.value.photo;
      }
    }
  }

  /**
   * A service reporting five pages, a maximum of two pages and start page 1:
   * the loop requests pages 1, 2 and 3, since the clamp allows
   * `start_page + max_pages` as the last page.
   */
  lemma FivePagesMaxTwo(fetch: Fetcher, sort: Option<string>)
    requires fetch(1, sort).Some? && fetch(1, sort).value.pages == 5
    requires Paginated(fetch, sort, 1, Some(2)).Fetched?
    ensures RequestedPages(Paginated(fetch, sort, 1, Some(2)), 1) == [1, 2, 3]
  {
  }
}
