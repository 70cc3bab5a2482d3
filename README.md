# flickr-scrape, modelled in Dafny

`scraper.py` is a command-line client for the Flickr REST API. Given a search
text, a group or a photoset, it works in three steps:

1. It pages through `flickr.photos.search`, `flickr.groups.pools.getPhotos` or
   `flickr.photosets.getPhotos` and collects the photo records.
2. It caches those records as one JSON document, `results<start_page>.json`,
   inside a folder named after the query.
3. It downloads each record's image into that folder. An image whose file is
   already there is skipped.

This project models the deterministic core of that script and proves properties
of it. The network and the disk become inputs.

- `Strings.dfy`: the Python primitives the script relies on: `str.split` with a
  one-character separator, `sep.join`, `str(int)` and the two-argument POSIX
  `os.path.join`. Split and join are proved inverse to each other, and `str` is
  proved injective on integers.
- `Naming.dfy`: the query folder `images/<sanitised name><bbox>`, the cache
  document name, the extension and local name of an image, and the default name
  used by `download_file`.
- `Request.dfy`: the parameter map `get_photos` builds, the response key it
  reads, and Python's argument binding for the pagination loop's call.
- `Pagination.dfy`: the page clamp and the pagination `while` loop, written as a
  method. The method is proved against a recursive specification.
- `Downloads.dfy`: the download `for` loop, written as a method over a set of
  file names. It is proved against a specification function, and lemmas cover
  freshness, distinctness, coverage, idempotence and isolation of skipped
  records.
- `Search.dfy`: `search` as a whole, covering the cache hit, the null marker,
  pagination and downloads. It includes the proof that a second run, after one
  that did not raise, requests nothing and changes nothing.
- `Command.dfy`: the checks the `__main__` block makes before calling `search`.

The service is a function from a parameter map to a decoded response, and
`get_group_id_from_url` is a function from a group URL to a group id. The disk
is a map from cache paths to documents plus a set of image paths. Downloading
an image adds its path to that set.

Points worth knowing about the code:

- When the service reports more pages than `start_page + max_pages`, the
  clamp makes that the last page, so a run that completes requests
  `max_pages + 1` pages (`Pagination.ClampedRunRequestsMaxPlusOne`). With 5 reported pages, at most 2 pages and
  start page 1, the loop with its call corrected requests pages 1, 2 and 3. As
  written it requests page 1 and raises (`Pagination.FivePagesMaxTwo`,
  `Pagination.AsWrittenFailsBeyondStartPage`).
- The `__main__` block gives `start_page` no default. When `--start-page` is
  omitted, the call to `search` raises `NameError`. This is modelled as the
  usage error `StartPageUnbound` (`Command.Prepare`).
- The folder ranks the query kinds as text > photoset > group. The request
  ranks them as text > group > photoset (`Search.FolderAndRequestDisagree`).
- Several query kinds may be given at once: the `__main__` block only rejects
  giving none. The response key, however, follows the photoset id alone, not
  the method sent. A search text or a group together with a photoset sends a
  text or group search, reads its answer under `photoset`, finds nothing,
  caches `null`, and every later run stops on that cached `null`
  (`Search.ResponseKeyIgnoresRequestKind`). With a single kind, the key and
  the method agree (`Request.ResponseKeyMatchesSingleKind`).
- The folder name does not record the query kind. A text search for `set 5`
  shares its folder and cache document with photoset 5
  (`Naming.FolderNamesCollide`).
- `get_photos` reads the photoset id from the module-level `qps`. When the script
  runs as a program, that global equals the `qps` passed to `search`, so the
  model passes it as an argument.
- `params['method'] = '...',` stores a one-element tuple. `requests` encodes a
  tuple as one value per element, so the method travels as a plain string, as
  modelled. `requests` drops parameters whose value is `None`, so `sort` is
  omitted when `--sort` is not given.
- The pagination loop's call passes no `sort`, so pages after the first use
  `get_photos`'s default `date-posted-asc`. The first page uses the caller's
  sort.

## Model

| member | source | states |
|---|---|---|
| `Strings.Split` | scraper.py:160 | `split` returns at least one piece. No piece contains the separator. A string without the separator splits into itself, and one with it splits into two or more pieces |
| `Strings.JoinSplit` | scraper.py:160 | Joining the pieces of a split with the same separator gives back the original string |
| `Strings.SplitJoin` | scraper.py:67 | If no piece contains the separator, splitting their join recovers exactly those pieces |
| `Strings.LastPieceIsSuffix` | scraper.py:129 | `s.split(c)[-1]` is the text after the last `c`. It contains no `c`, it ends `s`, and `c` precedes it unless `s` has no `c`, in which case it is all of `s` |
| `Strings.NatToDecimal` | scraper.py:92 | `str` of a natural number is a non-empty string of decimal digits. It starts with `0` only for zero, so it has no leading zero |
| `Strings.DecimalRoundTrip` | scraper.py:92 | Reading the digits of `str(n)` back gives `n` |
| `Strings.SignOfString` | scraper.py:92 | `str(i)` starts with `-` exactly when `i` is negative |
| `Strings.IntToStringInjective` | scraper.py:92 | Two integers with the same `str` are equal |
| `Strings.PathJoin` | scraper.py:84 | POSIX `os.path.join(a, b)`: an absolute `b` is the result, and so is any `b` after an empty `a`. Otherwise it is `a + b` when `a` ends in `/`, and `a + '/' + b` when it does not |
| `Naming.Sanitize` | scraper.py:84 | Sanitising keeps the length. Every output character is an ASCII word character, word characters are left unchanged, and every other character becomes `_` |
| `Naming.SanitizeIdempotent` | scraper.py:84 | Sanitising twice gives the same result as sanitising once |
| `Naming.FolderName` | scraper.py:84-87 | The folder is `images/`, then the sanitised base (text, else `set_<id>`, else `group_<id>`), which holds only word characters, then the box components joined by `_` without sanitisation |
| `Naming.FolderNamesCollide` | scraper.py:84 | A text search for `set 5` and photoset 5 get the same folder |
| `Naming.ResultsFileName` | scraper.py:92 | The cache document name ends in `.json` |
| `Naming.ResultsFileNameShape` | scraper.py:92 | Under a folder without a trailing `/`, the cache document is `<folder>/results<str(start_page)>.json` |
| `Naming.ResultsFileNameInjective` | scraper.py:92 | Within one folder, different start pages give different cache documents |
| `Naming.Extension` | scraper.py:129 | The extension is the text after the URL's last `.`. It contains no `.` and ends the URL. It is the whole URL when the URL has no `.` |
| `Naming.LocalNameShape` | scraper.py:130 | For a relative id and a folder without a trailing `/`, the local name is `<folder>/<id>.<ext>` |
| `Naming.DownloadName` | scraper.py:17-19 | Without a local name, `download_file` uses the URL's last `/` segment. That segment contains no `/`, ends the URL and follows its last `/` |
| `Request.SizeField` | scraper.py:49 | The URL field is `url_o` exactly when originals are requested, and `url_l` otherwise |
| `Request.BuildParams` | scraper.py:55-63 | `text` is present exactly when a search text is given. `group_id` is present exactly when there is no text and a group is given. `photoset_id` is present only when neither is given. Each comes with its matching `method`, and no `method` is set when no query kind is given |
| `Request.WireNameInjective` | scraper.py:41-52 | Distinct parameters are sent under distinct names, so a map keyed by parameter stands for the string-keyed `params` dict |
| `Request.ExactlyOneQueryKind` | scraper.py:55-63 | A call carries at most one of `text`/`group_id`/`photoset_id`, and exactly one whenever a query kind is given |
| `Request.ParamsCarryBboxAndSort` | scraper.py:65-67 | `bbox` is sent exactly for a four-component box, joined by `,`. `sort` is sent exactly when one is given |
| `Request.ParamsCarryFixedSettings` | scraper.py:42-53 | The page number (as `str`), the API key, `per_page=500` and the extras list are always sent |
| `Request.ExtrasRequestSizeField` | scraper.py:49 | The fields named in `extras` include the URL field the download loop reads, and exclude the other size's field |
| `Request.BboxRecoverable` | scraper.py:66-67 | If no bound contains a comma, splitting the `bbox` value on `,` gives back the four bounds |
| `Request.ResponseKey` | scraper.py:71-80 | The response key is `photoset` if and only if a photoset id is set, and `photos` otherwise |
| `Request.ResponseKeyMatchesSingleKind` | scraper.py:55-80 | When a call names exactly one query kind, the response key is `photoset` exactly when the method sent is `flickr.photosets.getPhotos` |
| `Request.PageUnderKey` | scraper.py:71-80 | The result is `None` exactly when the response lacks the key. Otherwise it is the value under the key |
| `Request.LoopCallRaises` | scraper.py:114 | The loop's call binds `page` twice and raises `TypeError`. Without the stray `qps`, the call binds, as the first-page call does |
| `Pagination.ClampTotal` | scraper.py:105-107 | The clamped total is at most the reported total. With `max_pages` it is at most `start_page + max_pages`, and exactly that when the reported total exceeds it. Without `max_pages`, or when under the limit, it is the reported total |
| `Pagination.PageRange` | scraper.py:111-113 | The page numbers from `lo` to `hi`, in steps of one |
| `Pagination.CollectFrom` | scraper.py:111-114 | A loop run that fails names a page after the current page and no later than the total |
| `Pagination.Paginate` | scraper.py:97-114 | The `while` loop's result and its requested pages equal the specification: the start page with its sort, then each page up to the clamped total with the default sort. The records are appended in order, and the loop stops at the first page without the response key |
| `Pagination.FetchedPagesAscending` | scraper.py:98-114 | A completed run requests each page once, in ascending order, from the start page up to the clamped total. It requests only the start page when the total does not exceed it |
| `Pagination.ClampedRunRequestsMaxPlusOne` | scraper.py:105-114 | With `max_pages = m` and at least `start_page + m` reported pages, a completed run requests exactly `m + 1` pages |
| `Pagination.CollectFromIsConcatenation` | scraper.py:109-114 | The loop's records are the concatenation, in page order, of the records of pages `current+1 .. total`. The loop fails exactly when one of those pages is unanswered |
| `Pagination.FetchedRecordsInPageOrder` | scraper.py:109-114 | A completed run's records are the start page's records followed by those of every later page, in page order |
| `Pagination.AsWrittenFailsBeyondStartPage` | scraper.py:111-114 | As written, any run whose clamped total exceeds the start page raises before requesting page `start_page+1`. The intended loop requests that page. Otherwise the two agree |
| `Pagination.FivePagesMaxTwo` | scraper.py:105-114 | With 5 reported pages, `max_pages = 2` and start page 1, the pages requested are 1, 2 and 3 |
| `Downloads.LocalNameOf` | scraper.py:127-130 | A record has a local name exactly when it carries both the URL field of the requested size and an `id`. Otherwise the `try` block raises and the loop skips the record. The name is `os.path.join(folder, '<id>.<extension of that URL>')` |
| `Downloads.ExtensionAfterLastDot` | scraper.py:129 | For any URL ending in `.<ext>` with no `.` in `<ext>`, the extension is `<ext>`, whatever dots the rest of the URL holds |
| `Downloads.LocalNameExample` | scraper.py:127-130 | A large image `<host>/12345_abcdef.jpg` of the record with id `12345` is saved as `<folder>/12345.jpg` |
| `Downloads.DownloadAll` | scraper.py:126-134 | The `for` loop's final folder is the old folder plus the local name of every record that has one. The names it downloads are exactly those of the specification, in order |
| `Downloads.DownloadsAreNew` | scraper.py:131-132 | No name already in the folder is downloaded. Every download is the name of one of the records |
| `Downloads.DownloadsAreDistinct` | scraper.py:131-132 | No name is downloaded twice in one run |
| `Downloads.DownloadsCoverNames` | scraper.py:126-134 | The old folder plus the downloaded names equals the old folder plus every record's name |
| `Downloads.RerunDownloadsNothing` | scraper.py:131 | Once every record's name is in the folder, a pass over the records downloads nothing |
| `Downloads.SkippedRecordIsolated` | scraper.py:127-134 | A record without a URL field or an id is skipped, and the records around it are processed as if it were absent |
| `Search.FetchForRequestsPage` | scraper.py:40-80 | One `get_photos` call sends the page number (as `str`), the API key and the given sort, if any. Its answer is `None` exactly when the response lacks the response key, and otherwise the value under that key |
| `Search.Search` | scraper.py:82-134 | `search` equals its specification. It reads an existing cache document, otherwise it paginates and writes the document (or the null marker, then returns). It then downloads |
| `Search.CacheHitRequestsNothing` | scraper.py:120-122 | When the cache document exists, no page is requested and the documents are unchanged. The downloads are those of the cached records |
| `Search.NullFirstPageStops` | scraper.py:99-103 | A first page without the response key writes `null` to the cache and requests only the start page. Nothing is downloaded |
| `Search.DownloadsOnlyMissingImages` | scraper.py:126-134 | One run downloads no image already on disk and no image twice. Afterwards the disk holds the old images plus the downloaded ones |
| `Search.FailedRunChangesNothing` | scraper.py:109-118 | A run that stops with an error on a later page writes no cache document, leaves the disk unchanged and downloads nothing |
| `Search.RerunIsIdempotent` | scraper.py:94-134 | Rerunning on the disk left by a run that did not raise requests no page, downloads nothing and changes nothing |
| `Search.ResponseKeyIgnoresRequestKind` | scraper.py:55-103 | With a text or group plus a photoset and no cache document, the request is not a photoset request. If its answer has no `photoset` key, `search` caches `null`, and a rerun on the resulting disk stops on the cached `null` |
| `Search.FolderAndRequestDisagree` | scraper.py:55-63 | With a group and a photoset but no text, the folder is named `set_<photoset>` while the request searches the group |
| `Command.ParseBbox` | scraper.py:159-165 | The box is kept exactly when the `--bbox` text splits on spaces into 4 components. Joining the components with spaces gives back the text, and no component contains a space |
| `Command.Prepare` | scraper.py:150-181 | The run stops with a usage error exactly when no query kind is given. `start_page` is unbound exactly when a query is given without `--start-page`. Otherwise `search` gets the arguments, the resolved group id and the parsed box |
| `Command.PreparedBboxIsSent` | scraper.py:159-165 | A box that reaches `search` has four components, and `get_photos` sends it joined by `,` |

## Findings

| source | as written | input that shows it | evidently intended | confidence | as-written member | corrected member |
|---|---|---|---|---|---|---|
| scraper.py:114 | `get_photos(qs, qg, qps, page=current_page, ...)` passes `qps` into the `page` slot and `page=` again, so Python raises `TypeError` | any search whose reported page count, after clamping, exceeds `start_page`, e.g. 3 pages from start page 1 | request page `current_page` and append its records | high; not executed | `Pagination.PaginatedAsWritten` (shown by `Pagination.AsWrittenFailsBeyondStartPage`, `Request.LoopCallRaises`) | `Pagination.Paginate` (against `Pagination.Paginated`; `Pagination.FetchedPagesAscending`, `Pagination.FetchedRecordsInPageOrder`) |

The rest of the model (`Search`) uses the corrected loop.

## Left out

- HTTP requests (`requests.get` at scraper.py:20, 37 and 69), JSON decoding and
  chunked writes to disk are not modelled. The service is an abstract function
  from parameters to a response, and a download only adds a name to the folder.
- A download that fails is not modelled. Every download succeeds, so the
  truncated file a failure can leave behind is not represented.
- `get_group_id_from_url` (scraper.py:28-38) is a single network lookup. It is
  an abstract function from a group URL to an id, and a lookup that fails is not
  modelled.
- Credential loading (scraper.py:11-15) is not modelled. The API key is a plain
  input.
- `argparse` (scraper.py:138-148) and `int()` parsing of `--max-pages` and
  `--start-page` are not modelled. `Args` holds the parsed values.
- `print` output, the `tqdm` progress bar and the 0.5 s `time.sleep` are not
  modelled. They do not affect the state.
- Creating the folder with `os.makedirs` is not modelled. Cache documents and
  images are kept in separate namespaces, so a photo whose local name equals the
  cache document path is not represented.
- `\W` is restricted to ASCII. `Naming.IsWordChar` treats only `[A-Za-z0-9_]`
  as word characters, whereas Python's `re` counts Unicode letters and digits too.
- The service's page object is assumed to carry `pages` and `photo`, and record
  fields are strings. A malformed page, which would raise `KeyError` in the
  script, is not modelled.
- `get_photos` is called as a program-level script only. Importing `search`
  from another module, where the global `qps` is missing, is not modelled.
