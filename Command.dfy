/**
 * The script's entry point: the checks and conversions it applies to the
 * command-line arguments before calling `search`.
 */
module Command {
  import opened Wrappers
  import opened Strings
  import opened Search

  /** The parsed command line; `bbox` is the raw `--bbox` text. */
  datatype Args = Args(
    search: Option<string>, group: Option<string>, photoset: Option<string>,
    original: bool, maxPages: Option<int>, sort: Option<string>,
    startPage: Option<int>, bbox: Option<string>)

  datatype UsageError =
    | NoQuery            // none of search text, group and photoset was given
    | StartPageUnbound   // `--start-page` was omitted, leaving `start_page` unassigned

  /** The call of `search` the script makes. */
  datatype Invocation = Invocation(query: Query, maxPages: Option<int>, startPage: int)

  /**
   * The bounding box: the `--bbox` text split on spaces, kept only when it
   * has exactly four components. The components are the text between the
   * spaces, so joining them with spaces gives back the argument.
   */
  function ParseBbox(arg: Option<string>): (r: Option<seq<string>>)
    ensures r.Some? <==> arg.Some? && |Split(arg.value, ' ')| == 4
    ensures r.Some? ==> |r.value| == 4 && Join(r.value, ' ') == arg.value
    ensures r.Some? ==> forall i :: 0 <= i < 4 ==> ' ' !in r.value[i]
  {
    if arg.None? then None
    else
      var parts := Split(arg.value, ' ');
      JoinSplit(arg.value, ' ');
      if |parts| != 4 then None else Some(parts)
  }

  /**
   * The entry point up to the call of `search`: stop when no query kind is
   * given, parse the box, resolve a group URL to its id, and take the start
   * page, which the script leaves unassigned when `--start-page` is omitted.
   */
  function Prepare(args: Args, resolveGroup: string -> string, apiKey: string): (r: Result<Invocation, UsageError>)
    ensures r == Failure(NoQuery) <==> args.search.None? && args.group.None? && args.photoset.None?
    ensures r == Failure(StartPageUnbound)
        <==> (args.search.Some? || args.group.Some? || args.photoset.Some?) && args.startPage.None?
    ensures r.Success? ==>
      var q := r.value.query;
      && q.qs == args.search && q.qps == args.photoset
      && q.qg == (if args.group.Some? then Some(resolveGroup(args.group.value)) else None)
      && q.bbox == ParseBbox(args.bbox)
      && q.original == args.original && q.sort == args.sort && q.apiKey == apiKey
      && r.value.maxPages == args.maxPages
      && r.value.startPage == args.startPage.value
  {
    if args.search.None? && args.photoset.None? && args.group.None? then Failure(NoQuery)
    else
      var bbox := ParseBbox(args.bbox);
      var qg := if args.group.Some? then Some(resolveGroup(args.group.value)) else None;
      if args.startPage.None? then Failure(StartPageUnbound)
      else
        var q := Query(args.search, qg, args.photoset, bbox, args.original, args.sort, apiKey);
        Success(Invocation(q, args.maxPages, args.startPage.value))
  }

  /** A box that reaches `search` always reaches the service too: it has the four components `get_photos` requires. */
  lemma PreparedBboxIsSent(args: Args, resolveGroup: string -> string, apiKey: string, page: int, sort: Option<string>)
    requires Prepare(args, resolveGroup, apiKey).Success?
    requires Prepare(args, resolveGroup, apiKey).value.query.bbox.Some?
    ensures var q := Prepare(args, resolveGroup, apiKey).value.query;
      var p := Request.BuildParams(apiKey, Request.Call(q.qs, q.qg, q.qps, page, q.original, q.bbox, sort));
      |q.bbox.value| == 4 && Request.Bbox in p && p[Request.Bbox] == Join(q.bbox.value, ',')
  {
    var q := Prepare(args, resolveGroup, apiKey).value.query;
    var call := Request.Call(q.qs, q.qg, q.qps, page, q.original, q.bbox, sort);
    Request.ParamsCarryBboxAndSort(apiKey, call);
  }
}
