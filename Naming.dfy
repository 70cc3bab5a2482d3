/**
 * Names the scraper derives from a query and from photo records: the query
 * folder, the cache document inside it, the local name of a downloaded image,
 * and `download_file`'s default name.
 */
module Naming {
  import opened Wrappers
  import opened Strings

  /** A word character of Python's `\w`, restricted to ASCII: `[A-Za-z0-9_]`. */
  predicate IsWordChar(ch: char)
  {
    ('a' <= ch <= 'z') || ('A' <= ch <= 'Z') || ('0' <= ch <= '9') || ch == '_'
  }

  /** `re.sub(r'[\W]', '_', s)`: every non-word character becomes an underscore. */
  function Sanitize(s: string): (r: string)
    ensures |r| == |s|
    ensures forall i :: 0 <= i < |r| ==> IsWordChar(r[i])
    ensures forall i :: 0 <= i < |s| && IsWordChar(s[i]) ==> r[i] == s[i]
    ensures forall i :: 0 <= i < |s| && !IsWordChar(s[i]) ==> r[i] == '_'
  {
    seq(|s|, i requires 0 <= i < |s| => if IsWordChar(s[i]) then s[i] else '_')
  }

  /** Sanitising twice is sanitising once. */
  lemma SanitizeIdempotent(s: string)
    ensures Sanitize(Sanitize(s)) == Sanitize(s)
  {
  }

  /**
   * The unsanitised folder base: the search text, else `set_<photoset id>`,
   * else `group_<group id>` (Python formats a missing group id as `None`).
   */
  function FolderBase(qs: Option<string>, qg: Option<string>, qps: Option<string>): string
  {
    if qs.Some? then qs.value
    else if qps.Some? then "set_" + qps.value
    else "group_" + (if qg.Some? then qg.value else "None")
  }

  /** The bounding box is appended to the folder, joined by `_`, after sanitisation. */
  function BboxSuffix(bbox: Option<seq<string>>): string
  {
    if bbox.Some? then Join(bbox.value, '_') else ""
  }

  /**
   * The query folder `images/<sanitised base><bbox>`: the part after `images/`
   * is the sanitised base, made of word characters only, followed by the box
   * components verbatim.
   */
  function FolderName(qs: Option<string>, qg: Option<string>, qps: Option<string>, bbox: Option<seq<string>>): (r: string)
    ensures var base := FolderBase(qs, qg, qps);
      && |r| == 7 + |base| + |BboxSuffix(bbox)|
      && r[..7] == "images/"
      && r[7..7 + |base|] == Sanitize(base)
      && (forall i :: 7 <= i < 7 + |base| ==> IsWordChar(r[i]))
      && r[7 + |base|..] == BboxSuffix(bbox)
  {
    var clean := Sanitize(FolderBase(qs, qg, qps));
    assert |clean| > 0 ==> clean[0] != '/' by {
      if |clean| > 0 { assert IsWordChar(clean[0]); }
    }
    PathJoin("images", clean) + BboxSuffix(bbox)
  }

  /** The cache document `<folder>/results<start_page>.json`. */
  function ResultsFileName(folder: string, startPage: int): (r: string)
    ensures |r| > 5 && r[|r| - 5..] == ".json"
  {
    PathJoin(folder, "results" + IntToString(startPage) + ".json")
  }

  /** One cache document per start page: different start pages never share a file. */
  lemma ResultsFileNameInjective(folder: string, p: int, q: int)
    requires ResultsFileName(folder, p) == ResultsFileName(folder, q)
    ensures p == q
  {
    var a, b := "results" + IntToString(p) + ".json", "results" + IntToString(q) + ".json";
    assert a[0] == 'r' && b[0] == 'r';
    if folder == [] || folder[|folder| - 1] == '/' {
      assert folder + a == folder + b;
      assert a == (folder + a)[|folder|..];
      assert b == (folder + b)[|folder|..];
    } else {
      assert folder + "/" + a == folder + "/" + b;
      assert a == (folder + "/" + a)[|folder| + 1..];
      assert b == (folder + "/" + b)[|folder| + 1..];
    }
    assert |IntToString(p)| == |IntToString(q)|;
    assert IntToString(p) == a[7..|a| - 5];
    assert IntToString(q) == b[7..|b| - 5];
    IntToStringInjective(p, q);
  }

  /** Under a folder without a trailing slash, the cache document is `<folder>/results<str(start_page)>.json`. */
  lemma ResultsFileNameShape(folder: string, startPage: int)
    requires folder != [] && folder[|folder| - 1] != '/'
    ensures ResultsFileName(folder, startPage) == folder + "/" + "results" + IntToString(startPage) + ".json"
  {
    assert ("results" + IntToString(startPage) + ".json")[0] == 'r';
  }

  /**
   * `url.split('.')[-1]`: the text after the last `.` of the whole URL. It holds
   * no `.`, it ends the URL, and a `.` precedes it whenever the URL has one.
   */
  function Extension(url: string): (ext: string)
    ensures '.' !in ext
    ensures |ext| <= |url| && url[|url| - |ext|..] == ext
    ensures '.' !in url ==> ext == url
    ensures '.' in url ==> |ext| < |url| && url[|url| - |ext| - 1] == '.'
  {
    LastPieceIsSuffix(url, '.');
    LastPiece(url, '.')
  }

  /** `os.path.join(folder, '{}.{}'.format(id, ext))`. */
  function LocalName(folder: string, id: string, ext: string): string
  {
    PathJoin(folder, id + "." + ext)
  }

  /** For a relative photo id under a folder without a trailing slash, the local name is `<folder>/<id>.<ext>`. */
  lemma LocalNameShape(folder: string, id: string, url: string)
    requires folder != [] && folder[|folder| - 1] != '/'
    requires id != [] && id[0] != '/'
    ensures LocalName(folder, id, Extension(url)) == folder + "/" + id + "." + Extension(url)
  {
    assert (id + "." + Extension(url))[0] == id[0];
  }

  /** `download_file`'s name: the given local name, else the last `/` segment of the URL. */
  function DownloadName(url: string, localName: Option<string>): (r: string)
    ensures localName.Some? ==> r == localName.value
    ensures localName.None? ==> '/' !in r && |r| <= |url| && url[|url| - |r|..] == r
    ensures localName.None? && '/' in url ==> |r| < |url| && url[|url| - |r| - 1] == '/'
  {
    LastPieceIsSuffix(url, '/');
    if localName.Some? then localName.value else LastPiece(url, '/')
  }

  /**
   * The folder does not say which kind of query produced it: a search for the
   * text `set 5` shares its folder, and so its cache document, with photoset 5.
   */
  lemma FolderNamesCollide()
    ensures FolderName(Some("set 5"), None, None, None) == FolderName(None, None, Some("5"), None)
  {
    assert Sanitize("set 5") == "set_5";
    assert Sanitize("set_5") == "set_5";
  }
}
