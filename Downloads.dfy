/**
 * The download loop at the end of `search`. The query folder is a set of
 * file names; downloading an image only adds its name to that set.
 */
module Downloads {
  import opened Wrappers
  import opened Request
  import opened Naming

  /**
   * The local file of one record, or `None` when the record lacks the URL
   * field of the requested size or an `id` (the loop's `try` then skips it).
   */
  function LocalNameOf(photo: Record, folder: string, original: bool): (name: Option<string>)
    ensures name.Some? <==> SizeField(original) in photo && "id" in photo
    ensures name.Some? ==> name.value == LocalName(folder, photo["id"], Extension(photo[SizeField(original)]))
  {
    var field := SizeField(original);
    if field in photo && "id" in photo then
      Some(LocalName(folder, photo["id"], Extension(photo[field])))
    else None
  }

  /** The extension is whatever follows the URL's last `.`, wherever that URL is hosted. */
  lemma ExtensionAfterLastDot(base: string, ext: string)
    requires '.' !in ext
    ensures Extension(base + "." + ext) == ext
  {
    var url := base + "." + ext;
    var e := Extension(url);
    assert url[|base|] == '.';
    assert e == url[|url| - |ext|..] == ext;
  }

  /** A large image `<host>/12345_abcdef.jpg` of the record with id `12345` is saved as `<folder>/12345.jpg`. */
  lemma LocalNameExample(folder: string, host: string)
    requires folder != [] && folder[|folder| - 1] != '/'
    ensures var photo := map["id" := "12345", "url_l" := host + "/12345_abcdef" + "." + "jpg"];
      LocalNameOf(photo, folder, false) == Some(folder + "/12345.jpg")
  {
    var photo := map["id" := "12345", "url_l" := host + "/12345_abcdef" + "." + "jpg"];
    var url := host + "/12345_abcdef" + "." + "jpg";
    assert SizeField(false) == "url_l" && photo["url_l"] == url && photo["id"] == "12345";
    ExtensionAfterLastDot(host + "/12345_abcdef", "jpg");
    LocalNameShape(folder, "12345", url);
    assert folder + "/" + "12345" + "." + "jpg" == folder + "/12345.jpg";
  }

  /** The local name of each record, in order. */
  function LocalNames(photos: seq<Record>, folder: string, original: bool): (names: seq<Option<string>>)
    ensures |names| == |photos|
    ensures forall i :: 0 <= i < |photos| ==> names[i] == LocalNameOf(photos[i], folder, original)
    decreases |photos|
  {
    if photos == [] then []
    else [LocalNameOf(photos[0], folder, original)] + LocalNames(photos[1..], folder, original)
  }

  /** The names present in a list of optional names. */
  function NameSet(names: seq<Option<string>>): set<string>
    decreases |names|
  {
    if names == [] then {}
    else if names[0].Some? then {names[0].value} + NameSet(names[1..])
    else NameSet(names[1..])
  }

  /**
   * The names downloaded, in order, when the loop meets `names` in a folder
   * already holding `have`: a record without a name is skipped, a name
   * already present is skipped, every other name is downloaded and then present.
   */
  function DownloadOrder(names: seq<Option<string>>, have: set<string>): seq<string>
    decreases |names|
  {
    if names == [] then []
    else if names[0].Some? && names[0].value !in have then
      [names[0].value] + DownloadOrder(names[1..], have + {names[0].value})
    else DownloadOrder(names[1..], have)
  }

  lemma {:induction false} NameSetAppend(a: seq<Option<string>>, b: seq<Option<string>>)
    ensures NameSet(a + b) == NameSet(a) + NameSet(b)
    decreases |a|
  {
    if a == [] {
      assert a + b == b;
    } else {
      assert (a + b)[0] == a[0] && (a + b)[1..] == a[1..] + b;
      NameSetAppend(a[1..], b);
    }
  }

  /** One turn of the download loop keeps its two invariants. */
  lemma DownloadStep(names: seq<Option<string>>, i: nat, existing: set<string>, files: set<string>, downloaded: seq<string>)
    requires i < |names|
    requires files == existing + NameSet(names[..i])
    requires downloaded + DownloadOrder(names[i..], files) == DownloadOrder(names, existing)
    ensures names[i].Some? ==> files + {names[i].value} == existing + NameSet(names[..i + 1])
    ensures names[i].None? ==> files == existing + NameSet(names[..i + 1])
    ensures names[i].Some? && names[i].value !in files ==>
      downloaded + [names[i].value] + DownloadOrder(names[i + 1..], files + {names[i].value}) == DownloadOrder(names, existing)
    ensures !(names[i].Some? && names[i].value !in files) ==>
      downloaded + DownloadOrder(names[i + 1..], files) == DownloadOrder(names, existing)
  {
    NameSetAppend(names[..i], [names[i]]);
    assert names[..i + 1] == names[..i] + [names[i]];
    assert names[i..][0] == names[i] && names[i..][1..] == names[i + 1..];
  }

  /**
   * The download loop: for each record in order, compute its local name and
   * download it unless a file of that name is already in the folder.
   */
  method DownloadAll(photos: seq<Record>, folder: string, original: bool, existing: set<string>)
    returns (files: set<string>, downloaded: seq<string>)
    ensures files == existing + NameSet(LocalNames(photos, folder, original))
    ensures downloaded == DownloadOrder(LocalNames(photos, folder, original), existing)
  {
    ghost var names := LocalNames(photos, folder, original);
    files, downloaded := existing, [];
    var i := 0;
    while i < |photos|
      invariant 0 <= i <= |photos|
      invariant files == existing + NameSet(names[..i])
      invariant downloaded + DownloadOrder(names[i..], files) == DownloadOrder(names, existing)
    {
      var name := LocalNameOf(photos[i], folder, original);
      DownloadStep(names, i, existing, files, downloaded);
      if name.Some? && name.value !in files {
        downloaded := downloaded + [name.value];
        files := files + {name.value};
      }
      i := i + 1;
    }
    assert names[..i] == names;
  }

  /** Nothing already in the folder is downloaded, and every download is one of the names. */
  lemma {:induction false} DownloadsAreNew(names: seq<Option<string>>, have: set<string>)
    ensures forall k :: 0 <= k < |DownloadOrder(names, have)| ==>
      DownloadOrder(names, have)[k] !in have && DownloadOrder(names, have)[k] in NameSet(names)
    decreases |names|
  {
    if names != [] {
      var d := DownloadOrder(names, have);
      if names[0].Some? && names[0].value !in have {
        var d' := DownloadOrder(names[1..], have + {names[0].value});
        DownloadsAreNew(names[1..], have + {names[0].value});
        assert d == [names[0].value] + d';
        forall k | 0 <= k < |d| ensures d[k] !in have && d[k] in NameSet(names) {
          if k > 0 { assert d[k] == d'[k - 1]; }
        }
      } else {
        DownloadsAreNew(names[1..], have);
      }
    }
  }

  predicate Distinct(names: seq<string>)
  {
    forall j, k :: 0 <= j < k < |names| ==> names[j] != names[k]
  }

  /** No name is downloaded twice in one run. */
  lemma {:induction false} DownloadsAreDistinct(names: seq<Option<string>>, have: set<string>)
    ensures Distinct(DownloadOrder(names, have))
    decreases |names|
  {
    if names != [] {
      var d := DownloadOrder(names, have);
      if names[0].Some? && names[0].value !in have {
        var n := names[0].value;
        var d' := DownloadOrder(names[1..], have + {n});
        DownloadsAreDistinct(names[1..], have + {n});
        DownloadsAreNew(names[1..], have + {n});
        assert d == [n] + d';
        forall j, k | 0 <= j < k < |d| ensures d[j] != d[k] {
          assert d[k] == d'[k - 1];
          if j > 0 { assert d[j] == d'[j - 1]; }
        }
      } else {
        DownloadsAreDistinct(names[1..], have);
      }
    }
  }

  /** After the loop the folder holds what it held plus every name. */
  lemma {:induction false} DownloadsCoverNames(names: seq<Option<string>>, have: set<string>)
    ensures have + (set x | x in DownloadOrder(names, have)) == have + NameSet(names)
    decreases |names|
  {
    if names != [] {
      var d := DownloadOrder(names, have);
      if names[0].Some? && names[0].value !in have {
        var n := names[0].value;
        var d' := DownloadOrder(names[1..], have + {n});
        DownloadsCoverNames(names[1..], have + {n});
        assert d == [n] + d';
        assert (set x | x in d) == {n} + (set x | x in d');
      } else {
        DownloadsCoverNames(names[1..], have);
      }
    }
  }

  /** A second pass over the same records, once their names are present, downloads nothing. */
  lemma {:induction false} RerunDownloadsNothing(names: seq<Option<string>>, have: set<string>)
    requires NameSet(names) <= have
    ensures DownloadOrder(names, have) == []
    decreases |names|
  {
    if names != [] {
      RerunDownloadsNothing(names[1..], have);
    }
  }

  lemma {:induction false} LocalNamesAppend(a: seq<Record>, b: seq<Record>, folder: string, original: bool)
    ensures LocalNames(a + b, folder, original) == LocalNames(a, folder, original) + LocalNames(b, folder, original)
  {
    var l, r := LocalNames(a + b, folder, original), LocalNames(a, folder, original) + LocalNames(b, folder, original);
    assert |l| == |r|;
    forall i | 0 <= i < |l| ensures l[i] == r[i] {
      if i < |a| { assert (a + b)[i] == a[i]; } else { assert (a + b)[i] == b[i - |a|]; }
    }
  }

  lemma {:induction false} NamelessIsolated(before: seq<Option<string>>, after: seq<Option<string>>, have: set<string>)
    ensures DownloadOrder(before + [None] + after, have) == DownloadOrder(before + after, have)
    decreases |before|
  {
    if before == [] {
      assert before + [None] + after == [None] + after;
      assert ([None] + after)[1..] == after;
      assert before + after == after;
    } else {
      assert (before + [None] + after)[1..] == before[1..] + [None] + after;
      assert (before + after)[1..] == before[1..] + after;
      assert (before + [None] + after)[0] == before[0] && (before + after)[0] == before[0];
      if before[0].Some? && before[0].value !in have {
        NamelessIsolated(before[1..], after, have + {before[0].value});
      } else {
        NamelessIsolated(before[1..], after, have);
      }
    }
  }

  /**
   * A record without the URL field (or without an id) changes nothing for the
   * others: the records around it are downloaded exactly as if it were absent.
   */
  lemma SkippedRecordIsolated(before: seq<Record>, bad: Record, after: seq<Record>,
                              folder: string, original: bool, have: set<string>)
    requires SizeField(original) !in bad || "id" !in bad
    ensures DownloadOrder(LocalNames(before + [bad] + after, folder, original), have)
         == DownloadOrder(LocalNames(before + after, folder, original), have)
  {
    LocalNamesAppend(before + [bad], after, folder, original);
    LocalNamesAppend(before, [bad], folder, original);
    LocalNamesAppend(before, after, folder, original);
    assert LocalNames([bad], folder, original) == [None];
    NamelessIsolated(LocalNames(before, folder, original), LocalNames(after, folder, original), have);
  }
}
