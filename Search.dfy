/**
 * `search` as a whole: derive the folder and the cache document, read the
 * cache or run the metadata phase and write the cache, then run the download
 * loop. The disk is the cache documents by path and the image files by path.
 */
module Search {
  import opened Wrappers
  import opened Strings
  import opened Request
  import opened Naming
  import opened Pagination
  import opened Downloads

  /** The photo service: the decoded JSON response to a request with the given parameters. */
  type Api = Params -> map<string, Page>

  /** What `search` is asked for, apart from the page numbers. */
  datatype Query = Query(
    qs: Option<string>, qg: Option<string>, qps: Option<string>,
    bbox: Option<seq<string>>, original: bool, sort: Option<string>, apiKey: string)

  /** `get_photos` for this query: build the parameters, ask the service, pick the response key. */
  function FetchFor(api: Api, q: Query): Fetcher
  {
    (page: int, sort: Option<string>) =>
      PageUnderKey(api(BuildParams(q.apiKey, Call(q.qs, q.qg, q.qps, page, q.original, q.bbox, sort))), q.qps)
  }

  /**
   * One `get_photos` call for page `page`: the request carries that page
   * number, the query's API key and the sort given (when any), and the answer
   * is the page under the response key, or `None` when the response lacks it.
   */
  lemma FetchForRequestsPage(api: Api, q: Query, page: int, sort: Option<string>)
    ensures var p := BuildParams(q.apiKey, Call(q.qs, q.qg, q.qps, page, q.original, q.bbox, sort));
      && PageNumber in p && p[PageNumber] == IntToString(page)
      && ApiKey in p && p[ApiKey] == q.apiKey
      && (Sort in p <==> sort.Some?) && (sort.Some? ==> p[Sort] == sort.value)
      && (FetchFor(api, q)(page, sort).Some? <==> ResponseKey(q.qps) in api(p))
      && (FetchFor(api, q)(page, sort).Some? ==> FetchFor(api, q)(page, sort).value == api(p)[ResponseKey(q.qps)])
  {
    var c := Call(q.qs, q.qg, q.qps, page, q.original, q.bbox, sort);
    ParamsCarryFixedSettings(q.apiKey, c);
    ParamsCarryBboxAndSort(q.apiKey, c);
  }

  /** A cache document: JSON `null` after a failed first page, else the list of records. */
  datatype CacheDoc = Null | Stored(photos: seq<Record>)

  datatype Disk = Disk(docs: map<string, CacheDoc>, images: set<string>)

  datatype Ending =
    | Finished                  // the download loop ran to the end
    | NullFirstPageCached       // returned after writing the null marker
    | StoppedWithError          // a later page raised; nothing was cached
    | CachedNullNotIterable     // the cached null was iterated, which raises

  /** The effect of one `search`: the disk afterwards, the pages requested and the images downloaded, in order. */
  datatype Run = Run(disk: Disk, requested: seq<int>, downloaded: seq<string>, ending: Ending)

  function Folder(q: Query): string
  {
    FolderName(q.qs, q.qg, q.qps, q.bbox)
  }

  function CacheFile(q: Query, startPage: int): string
  {
    ResultsFileName(Folder(q), startPage)
  }

  /** What one `search` does to the disk, given the service. */
  function SearchOutcome(api: Api, q: Query, maxPages: Option<int>, startPage: int, disk: Disk): Run
  {
    var folder := Folder(q);
    var json := CacheFile(q, startPage);
    if json in disk.docs then
      match disk.docs[json]
      case Null => Run(disk, [], [], CachedNullNotIterable)
      case Stored(photos) =>
        Run(Disk(disk.docs, disk.images + NameSet(LocalNames(photos, folder, q.original))), [],
            DownloadOrder(LocalNames(photos, folder, q.original), disk.images), Finished)
    else
      var run := Paginated(FetchFor(api, q), q.sort, startPage, maxPages);
      var requested := RequestedPages(run, startPage);
      match run
      case NullFirstPage => Run(Disk(disk.docs[json := Null], disk.images), requested, [], NullFirstPageCached)
      case Aborted(_) => Run(disk, requested, [], StoppedWithError)
      case BadCall(_) => Run(disk, requested, [], StoppedWithError)
      case Fetched(_, photos) =>
        Run(Disk(disk.docs[json := Stored(photos)], disk.images + NameSet(LocalNames(photos, folder, q.original))),
            requested, DownloadOrder(LocalNames(photos, folder, q.original), disk.images), Finished)
  }

  /**
   * `search`: read the cache document if it exists, else paginate and write
   * it (the null marker when the first page fails, returning at once); then
   * download the records' images into the folder.
   */
  method Search(api: Api, q: Query, maxPages: Option<int>, startPage: int, disk: Disk) returns (r: Run)
    ensures r == SearchOutcome(api, q, maxPages, startPage, disk)
  {
    var folder := Folder(q);
    var json := CacheFile(q, startPage);
    var docs := disk.docs;
    var requested: seq<int> := [];
    var photos: seq<Record>;
    if json in docs {
      if docs[json].Null? {
        return Run(disk, [], [], CachedNullNotIterable);
      }
      photos := docs[json].photos;
    } else {
      var run;
      requested, run := Paginate(FetchFor(api, q), q.sort, startPage, maxPages);
      if run.NullFirstPage? {
        return Run(Disk(docs[json := Null], disk.images), requested, [], NullFirstPageCached);
      } else if !run.Fetched? {
        return Run(disk, requested, [], StoppedWithError);
      }
      photos := run.photos;
      docs := docs[json := Stored(photos)];
    }
    var images, downloaded := DownloadAll(photos, folder, q.original, disk.images);
    r := Run(Disk(docs, images), requested, downloaded, Finished);
  }

  /** An existing cache document is used verbatim: no page is requested and the documents stay as they were. */
  lemma CacheHitRequestsNothing(api: Api, q: Query, maxPages: Option<int>, startPage: int, disk: Disk)
    ensures var r := SearchOutcome(api, q, maxPages, startPage, disk);
      CacheFile(q, startPage) in disk.docs ==>
        && r.requested == []
        && r.disk.docs == disk.docs
        && (disk.docs[CacheFile(q, startPage)].Stored? ==>
              r.downloaded == DownloadOrder(LocalNames(disk.docs[CacheFile(q, startPage)].photos, Folder(q), q.original), disk.images))
  {
  }

  /**
   * A first page without the response key caches the null marker and stops:
   * only the start page is requested and nothing is downloaded.
   */
  lemma NullFirstPageStops(api: Api, q: Query, maxPages: Option<int>, startPage: int, disk: Disk)
    ensures var r := SearchOutcome(api, q, maxPages, startPage, disk);
      CacheFile(q, startPage) !in disk.docs && FetchFor(api, q)(startPage, q.sort).None? ==>
        && r.disk.docs == disk.docs[CacheFile(q, startPage) := Null]
        && r.disk.images == disk.images
        && r.requested == [startPage]
        && r.downloaded == []
  {
  }

  /**
   * One run never downloads an image already on disk nor the same image
   * twice, and leaves on disk exactly the old images plus those it downloaded.
   */
  lemma DownloadsOnlyMissingImages(api: Api, q: Query, maxPages: Option<int>, startPage: int, disk: Disk)
    ensures var r := SearchOutcome(api, q, maxPages, startPage, disk);
      && (forall k :: 0 <= k < |r.downloaded| ==> r.downloaded[k] !in disk.images)
      && Distinct(r.downloaded)
      && r.disk.images == disk.images + (set x | x in r.downloaded)
  {
    var r := SearchOutcome(api, q, maxPages, startPage, disk);
    var json := CacheFile(q, startPage);
    var photos: seq<Record> := [];
    if json in disk.docs && disk.docs[json].Stored? {
      photos := disk.docs[json].photos;
    } else if json !in disk.docs {
      var run := Paginated(FetchFor(api, q), q.sort, startPage, maxPages);
      if run.Fetched? {
        photos := run.photos;
      }
    }
    var names := LocalNames(photos, Folder(q), q.original);
    DownloadsAreNew(names, disk.images);
    DownloadsAreDistinct(names, disk.images);
    DownloadsCoverNames(names, disk.images);
  }

  /**
   * Pagination is all or nothing: a run that stops on a failed later page (or
   * on the raising call) writes no cache document and downloads nothing.
   */
  lemma FailedRunChangesNothing(api: Api, q: Query, maxPages: Option<int>, startPage: int, disk: Disk)
    ensures var r := SearchOutcome(api, q, maxPages, startPage, disk);
      r.ending == StoppedWithError ==>
        r.disk == disk && r.downloaded == [] && CacheFile(q, startPage) !in r.disk.docs
  {
  }

  /**
   * Running `search` again on the disk a run left behind, unless that run
   * raised, requests no page, downloads nothing and changes nothing.
   */
  lemma RerunIsIdempotent(api: Api, q: Query, maxPages: Option<int>, startPage: int, disk: Disk)
    ensures var first := SearchOutcome(api, q, maxPages, startPage, disk);
      var second := SearchOutcome(api, q, maxPages, startPage, first.disk);
      first.ending != StoppedWithError ==>
        second.requested == [] && second.downloaded == [] && second.disk == first.disk
  {
    var first := SearchOutcome(api, q, maxPages, startPage, disk);
    var json := CacheFile(q, startPage);
    if first.ending != StoppedWithError && first.disk.docs[json].Stored? {
      var photos := first.disk.docs[json].photos;
      var names := LocalNames(photos, Folder(q), q.original);
      assert first.disk.images == disk.images + NameSet(names);
      RerunDownloadsNothing(names, first.disk.images);
    }
  }

  /**
   * The response key follows the photoset id, not the kind of request sent: with
   * a search text or a group as well as a photoset, the request is a text or
   * group search, whose answer has no `photoset` key. The first page then reads
   * as missing, the null marker is cached, and every later run stops on it.
   */
  lemma ResponseKeyIgnoresRequestKind(api: Api, q: Query, maxPages: Option<int>, startPage: int, disk: Disk)
    requires (q.qs.Some? || q.qg.Some?) && q.qps.Some?
    requires CacheFile(q, startPage) !in disk.docs
    requires "photoset" !in api(BuildParams(q.apiKey, Call(q.qs, q.qg, q.qps, startPage, q.original, q.bbox, q.sort)))
    ensures var p := BuildParams(q.apiKey, Call(q.qs, q.qg, q.qps, startPage, q.original, q.bbox, q.sort));
      Method in p && p[Method] != "flickr.photosets.getPhotos" && PhotosetId !in p
    ensures var first := SearchOutcome(api, q, maxPages, startPage, disk);
      && first.ending == NullFirstPageCached
      && first.disk.docs == disk.docs[CacheFile(q, startPage) := Null]
      && SearchOutcome(api, q, maxPages, startPage, first.disk).ending == CachedNullNotIterable
  {
    FetchForRequestsPage(api, q, startPage, q.sort);
  }

  /**
   * The folder and the request rank the query kinds differently: given both a
   * group and a photoset and no search text, the folder is named after the
   * photoset while the request searches the group.
   */
  lemma FolderAndRequestDisagree(q: Query, page: int, sort: Option<string>)
    requires q.qs.None? && q.qg.Some? && q.qps.Some?
    ensures FolderBase(q.qs, q.qg, q.qps) == "set_" + q.qps.value
    ensures var p := BuildParams(q.apiKey, Call(q.qs, q.qg, q.qps, page, q.original, q.bbox, sort));
      GroupId in p && p[GroupId] == q.qg.value && PhotosetId !in p
  {
  }
}
