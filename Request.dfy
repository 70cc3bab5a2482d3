/**
 * `get_photos`: the query-string parameters of one call to the photo
 * service's REST endpoint, and the choice of the response key that holds the
 * page. The HTTP request itself is left to the caller (see `Search.Api`).
 */
module Request {
  import opened Wrappers
  import opened Strings

  /** A photo record as the service returns it: JSON fields, kept opaque. */
  type Record = map<string, string>

  /** The page object under the response key: `pages` and the page's `photo` list. */
  datatype Page = Page(pages: int, photo: seq<Record>)

  /** The names of the query-string parameters `get_photos` may send. */
  datatype Key =
    | ContentType | PerPage | Media | Format | Advanced | NoJsonCallback | Extras
    | PageNumber | Sort | ApiKey | Method | Text | GroupId | PhotosetId | Bbox

  /** The name each parameter carries on the wire. */
  function WireName(k: Key): string
  {
    match k
    case ContentType => "content_type"
    case PerPage => "per_page"
    case Media => "media"
    case Format => "format"
    case Advanced => "advanced"
    case NoJsonCallback => "nojsoncallback"
    case Extras => "extras"
    case PageNumber => "page"
    case Sort => "sort"
    case ApiKey => "api_key"
    case Method => "method"
    case Text => "text"
    case GroupId => "group_id"
    case PhotosetId => "photoset_id"
    case Bbox => "bbox"
  }

  /** Distinct parameters go out under distinct names, so a map keyed by `Key` stands for the string-keyed dict. */
  lemma WireNameInjective(j: Key, k: Key)
    requires WireName(j) == WireName(k)
    ensures j == k
  {
    assert |WireName(j)| == |WireName(k)|;
    assert WireName(j)[0] == WireName(k)[0];
  }

  /** The query-string parameters, each value as `requests` encodes it. */
  type Params = map<Key, string>

  /** The sort `get_photos` uses when its caller passes none. */
  const DefaultSort: Option<string> := Some("date-posted-asc")

  /** The arguments of one `get_photos` call; `qps` is the script's photoset id. */
  datatype Call = Call(
    qs: Option<string>, qg: Option<string>, qps: Option<string>,
    page: int, original: bool, bbox: Option<seq<string>>, sort: Option<string>)

  /** The record field that holds the image URL: `url_o` for originals, `url_l` otherwise. */
  function SizeField(original: bool): (f: string)
    ensures f == "url_o" || f == "url_l"
    ensures (f == "url_o") == original
  {
    if original then "url_o" else "url_l"
  }

  /** The metadata fields requested with each photo, in the order `extras` lists them. */
  function ExtrasFields(original: bool): seq<string>
  {
    ["media", "realname", SizeField(original), "o_dims", "geo", "tags", "machine_tags", "date_taken"]
  }

  /** The `extras` value: those fields, comma-separated. */
  function ExtrasValue(original: bool): string
  {
    Join(ExtrasFields(original), ',')
  }

  /** The three parameters that name what is searched. */
  const QueryKeys: set<Key> := {Text, GroupId, PhotosetId}

  /** Every parameter name. */
  const AllKeys: set<Key> := {
    ContentType, PerPage, Media, Format, Advanced, NoJsonCallback, Extras,
    PageNumber, Sort, ApiKey, Method, Text, GroupId, PhotosetId, Bbox}

  /**
   * The value of one parameter in a call, or `None` when the call does not
   * send it: the search kind goes by priority text > group > photoset, and
   * `requests` drops a parameter whose value is `None`, such as a missing sort.
   */
  function ParamValue(apiKey: string, c: Call, k: Key): Option<string>
  {
    match k
    case ContentType => Some("7")
    case PerPage => Some("500")
    case Media => Some("photos")
    case Format => Some("json")
    case Advanced => Some("1")
    case NoJsonCallback => Some("1")
    case Extras => Some(ExtrasValue(c.original))
    case PageNumber => Some(IntToString(c.page))
    case Sort => c.sort
    case ApiKey => Some(apiKey)
    case Method =>
      if c.qs.Some? then Some("flickr.photos.search")
      else if c.qg.Some? then Some("flickr.groups.pools.getPhotos")
      else if c.qps.Some? then Some("flickr.photosets.getPhotos")
      else None
    case Text => c.qs
    case GroupId => if c.qs.None? then c.qg else None
    case PhotosetId => if c.qs.None? && c.qg.None? then c.qps else None
    case Bbox => if c.bbox.Some? && |c.bbox.value| == 4 then Some(Join(c.bbox.value, ',')) else None
  }

  /**
   * The parameter map of one call. Exactly one of `text`, `group_id`,
   * `photoset_id` is present, chosen with priority search text > group >
   * photoset, with the matching `method`.
   */
  function BuildParams(apiKey: string, c: Call): (p: Params)
    ensures (Text in p) == c.qs.Some?
    ensures (GroupId in p) == (c.qs.None? && c.qg.Some?)
    ensures (PhotosetId in p) == (c.qs.None? && c.qg.None? && c.qps.Some?)
    ensures (Method in p) == (c.qs.Some? || c.qg.Some? || c.qps.Some?)
    ensures Text in p ==> p[Text] == c.qs.value && p[Method] == "flickr.photos.search"
    ensures GroupId in p ==> p[GroupId] == c.qg.value && p[Method] == "flickr.groups.pools.getPhotos"
    ensures PhotosetId in p ==> p[PhotosetId] == c.qps.value && p[Method] == "flickr.photosets.getPhotos"
  {
    map k | k in AllKeys && ParamValue(apiKey, c, k).Some? :: ParamValue(apiKey, c, k).value
  }

  /** The box is sent only when it has four components, joined by `,`; the sort only when one is given. */
  lemma ParamsCarryBboxAndSort(apiKey: string, c: Call)
    ensures var p := BuildParams(apiKey, c);
      && (Bbox in p) == (c.bbox.Some? && |c.bbox.value| == 4)
      && (Bbox in p ==> p[Bbox] == Join(c.bbox.value, ','))
      && (Sort in p) == c.sort.Some? && (Sort in p ==> p[Sort] == c.sort.value)
  {
  }

  /** The page number, the key, the page size of 500 and the extras are always sent. */
  lemma ParamsCarryFixedSettings(apiKey: string, c: Call)
    ensures var p := BuildParams(apiKey, c);
      && PageNumber in p && p[PageNumber] == IntToString(c.page)
      && ApiKey in p && p[ApiKey] == apiKey
      && PerPage in p && p[PerPage] == "500"
      && Extras in p && p[Extras] == ExtrasValue(c.original)
  {
  }

  /** A call names at most one query kind, and exactly one when any is given. */
  lemma ExactlyOneQueryKind(apiKey: string, c: Call)
    ensures var p := BuildParams(apiKey, c);
      |p.Keys * QueryKeys| == if c.qs.Some? || c.qg.Some? || c.qps.Some? then 1 else 0
  {
    var p := BuildParams(apiKey, c);
    if c.qs.Some? {
      assert p.Keys * QueryKeys == {Text};
    } else if c.qg.Some? {
      assert p.Keys * QueryKeys == {GroupId};
    } else if c.qps.Some? {
      assert p.Keys * QueryKeys == {PhotosetId};
    } else {
      assert p.Keys * QueryKeys == {};
    }
  }

  /** No field named in `extras` holds a comma. */
  lemma ExtrasFieldsHaveNoComma(original: bool)
    ensures forall i :: 0 <= i < |ExtrasFields(original)| ==> ',' !in ExtrasFields(original)[i]
  {
  }

  /** The size field for `original` is named in `extras`; the other size's is not. */
  lemma ExtrasNameOneSize(original: bool)
    ensures SizeField(original) in ExtrasFields(original)
    ensures SizeField(!original) !in ExtrasFields(original)
  {
    assert ExtrasFields(original)[2] == SizeField(original);
  }

  /**
   * The URL field the download loop reads is one of the fields named in
   * `extras`, and the other size's field is not.
   */
  lemma ExtrasRequestSizeField(original: bool)
    ensures var fields := Split(ExtrasValue(original), ',');
      SizeField(original) in fields && SizeField(!original) !in fields
  {
    var fs := ExtrasFields(original);
    ExtrasFieldsHaveNoComma(original);
    ExtrasNameOneSize(original);
    SplitJoin(fs, ',');
  }

  /** The service reads back the four bounds it was sent, provided none of them holds a comma. */
  lemma BboxRecoverable(apiKey: string, c: Call)
    requires c.bbox.Some? && |c.bbox.value| == 4
    requires forall i :: 0 <= i < 4 ==> ',' !in c.bbox.value[i]
    ensures Split(BuildParams(apiKey, c)[Bbox], ',') == c.bbox.value
  {
    SplitJoin(c.bbox.value, ',');
  }

  /** The top-level response key: `photoset` exactly when a photoset id is set. */
  function ResponseKey(qps: Option<string>): (k: string)
    ensures k == "photoset" <==> qps.Some?
    ensures k == "photos" <==> qps.None?
  {
    if qps.Some? then "photoset" else "photos"
  }

  /**
   * For a call that names exactly one query kind, the key read back matches
   * the method sent: `photoset` exactly for `flickr.photosets.getPhotos`.
   */
  lemma ResponseKeyMatchesSingleKind(apiKey: string, c: Call)
    requires || (c.qs.Some? && c.qg.None? && c.qps.None?)
             || (c.qs.None? && c.qg.Some? && c.qps.None?)
             || (c.qs.None? && c.qg.None? && c.qps.Some?)
    ensures Method in BuildParams(apiKey, c)
    ensures ResponseKey(c.qps) == "photoset" <==> BuildParams(apiKey, c)[Method] == "flickr.photosets.getPhotos"
  {
  }

  /** The page under the response key, or `None` when the response lacks it. */
  function PageUnderKey(response: map<string, Page>, qps: Option<string>): (r: Option<Page>)
    ensures r.Some? <==> ResponseKey(qps) in response
    ensures r.Some? ==> r.value == response[ResponseKey(qps)]
  {
    var key := ResponseKey(qps);
    if key in response then Some(response[key]) else None
  }

  /** The parameters of `get_photos`, in declaration order. */
  const GetPhotosSignature: seq<string> := ["qs", "qg", "page", "original", "bbox", "sort"]

  /**
   * Whether Python rejects a call to `get_photos` with `positional` positional
   * arguments and the given keyword arguments with a `TypeError`: too many
   * positional arguments, a keyword naming a parameter already filled
   * positionally, or an unknown keyword.
   */
  predicate CallRaisesTypeError(positional: nat, keywords: set<string>)
  {
    || positional > |GetPhotosSignature|
    || (exists i :: 0 <= i < positional && i < |GetPhotosSignature| && GetPhotosSignature[i] in keywords)
    || (exists k :: k in keywords && k !in GetPhotosSignature)
  }

  /** The keywords of the per-page call inside the pagination loop. */
  const LoopCallKeywords: set<string> := {"page", "original", "bbox"}

  /**
   * The loop's call passes `qs, qg, qps` positionally, so `qps` lands in the
   * `page` slot and `page=` binds it a second time: the call always raises.
   * Dropping the stray `qps` gives a call that binds, as the first-page call does.
   */
  lemma LoopCallRaises()
    ensures CallRaisesTypeError(3, LoopCallKeywords)
    ensures !CallRaisesTypeError(2, LoopCallKeywords)
    ensures !CallRaisesTypeError(2, LoopCallKeywords + {"sort"})
  {
    assert GetPhotosSignature[2] in LoopCallKeywords;
    assert forall k :: k in LoopCallKeywords + {"sort"} ==> k in GetPhotosSignature by {
      assert GetPhotosSignature[2] == "page" && GetPhotosSignature[3] == "original";
      assert GetPhotosSignature[4] == "bbox" && GetPhotosSignature[5] == "sort";
    }
  }
}
