/** Municipality boundaries of one prefecture: the URLs of the file listing and of
    each municipality file, the cache key, and how the per-file outcomes are combined
    into one feature list. The downloads are given by oracles from URL to outcome. */
module EStatGis {
  import opened Wrappers
  import opened Text
  import opened Seqs
  import opened EStatClient
  import opened Japan

  const NiiyzRawBase := "https://raw.githubusercontent.com/niiyz/JapanCityGeoJson/master/geojson"
  const NiiyzApiBase := "https://api.github.com/repos/niiyz/JapanCityGeoJson/contents/geojson"

  /** `buildMunicipalityListUrl`: the listing of the prefecture's directory, with the
      prefecture code left-padded to two characters. */
  function BuildMunicipalityListUrl(prefCode: string): (r: string)
    ensures IsPrefix(NiiyzApiBase + "/", r)
    ensures r[|NiiyzApiBase| + 1..] == PadStart(prefCode, 2)
    ensures |prefCode| >= 2 ==> r == NiiyzApiBase + "/" + prefCode
  {
    var r := NiiyzApiBase + "/" + PadStart(prefCode, 2);
    assert r[..|NiiyzApiBase| + 1] == NiiyzApiBase + "/";
    r
  }

  /** `buildMunicipalityFileUrl`: the prefecture code is padded, the municipality code
      is used exactly as given. */
  function BuildMunicipalityFileUrl(prefCode: string, muniCode: string): (r: string)
    ensures IsPrefix(NiiyzRawBase + "/" + PadStart(prefCode, 2) + "/", r)
    ensures IsSuffix(muniCode + ".json", r)
    ensures |r| == |NiiyzRawBase| + 1 + |PadStart(prefCode, 2)| + 1 + |muniCode| + 5
  {
    var dir := NiiyzRawBase + "/" + PadStart(prefCode, 2) + "/";
    var r := dir + (muniCode + ".json");
    assert r[..|dir|] == dir;
    assert r[|r| - |muniCode + ".json"|..] == muniCode + ".json";
    r
  }

  const CachePrefix := "geojson:municipality:"

  /** `cacheKey`: the prefecture code is appended unpadded. */
  function CacheKey(prefCode: string): (r: string)
    ensures IsPrefix(CachePrefix, r) && r[|CachePrefix|..] == prefCode
  {
    var r := CachePrefix + prefCode;
    assert r[..|CachePrefix|] == CachePrefix;
    r
  }

  /** Distinct prefecture codes get distinct cache entries; so `"1"` and `"01"` are
      cached apart even though they list the same directory. */
  lemma CacheKeyInjective(p1: string, p2: string)
    requires CacheKey(p1) == CacheKey(p2)
    ensures p1 == p2
  {
    assert p1 == CacheKey(p1)[|CachePrefix|..];
  }

  lemma UrlExamples()
    ensures BuildMunicipalityListUrl("13") == NiiyzApiBase + "/13"
    ensures BuildMunicipalityListUrl("1") == NiiyzApiBase + "/01"
    ensures CacheKey("13") == "geojson:municipality:13"
    ensures BuildMunicipalityListUrl("1") == BuildMunicipalityListUrl("01") && CacheKey("1") != CacheKey("01")
  {
    assert PadStart("1", 2) == "01" by { assert Zeros(1) == "0"; }
    assert CacheKey("1")[|CachePrefix|..] != CacheKey("01")[|CachePrefix|..];
  }

  /** One entry of the directory listing. */
  datatype FileEntry = FileEntry(name: string, downloadUrl: string)

  /** The listing request and the file downloads; a file's body is its feature list. */
  type ListingOracle = string -> HttpOutcome<seq<FileEntry>>
  type FileOracle = string -> HttpOutcome<seq<Feature>>

  predicate IsJsonFile(f: FileEntry) { IsSuffix(".json", f.name) }

  /** `files.filter(f => f.name.endsWith('.json'))`. */
  function JsonFiles(files: seq<FileEntry>): (r: seq<FileEntry>)
    ensures |r| <= |files|
  {
    if |files| == 0 then []
    else
      var last := files[|files| - 1];
      JsonFiles(files[..|files| - 1]) + (if IsJsonFile(last) then [last] else [])
  }

  /** The filter keeps exactly the `.json` entries. */
  lemma {:induction false} JsonFilesMembers(files: seq<FileEntry>, f: FileEntry)
    ensures f in JsonFiles(files) <==> f in files && IsJsonFile(f)
  {
    if |files| > 0 {
      var init := files[..|files| - 1];
      var last := files[|files| - 1];
      assert files == init + [last];
      JsonFilesMembers(init, f);
    }
  }

  lemma {:induction false} JsonFilesAppend(a: seq<FileEntry>, b: seq<FileEntry>)
    ensures JsonFiles(a + b) == JsonFiles(a) + JsonFiles(b)
  {
    if |b| > 0 {
      var m := |b|;
      assert (a + b)[..|a + b| - 1] == a + b[..m - 1];
      assert (a + b)[|a + b| - 1] == b[m - 1];
      JsonFilesAppend(a, b[..m - 1]);
    } else {
      assert a + b == a;
    }
  }

  /** One file's contribution: its features when the download is `ok`, and nothing when
      it is not `ok` or throws. */
  function FileFeatures(files: FileOracle, f: FileEntry): (r: seq<Feature>)
    ensures files(f.downloadUrl).NetworkFailure? ==> r == []
    ensures files(f.downloadUrl).HttpReply? && !files(f.downloadUrl).ok ==> r == []
    ensures files(f.downloadUrl).HttpReply? && files(f.downloadUrl).ok ==> r == files(f.downloadUrl).body
  {
    match files(f.downloadUrl)
    case NetworkFailure(_) => []
    case HttpReply(ok, _, features) => if ok then features else []
  }

  /** The per-file results, in file order. */
  function Gather(files: FileOracle, entries: seq<FileEntry>): (r: seq<seq<Feature>>)
    ensures |r| == |entries|
    ensures forall i :: 0 <= i < |entries| ==> r[i] == FileFeatures(files, entries[i])
  {
    seq(|entries|, i requires 0 <= i < |entries| => FileFeatures(files, entries[i]))
  }

  /** The message of the `Error` thrown for a listing that is not `ok`: it names the
      prefecture code and ends in the status. */
  function ListFailureMessage(prefCode: string, status: int): (r: string)
    ensures IsInfix(prefCode, r) && IsSuffix(": " + IntToString(status), r)
  {
    var a := "Failed to list municipalities for prefCode ";
    var b := ": " + IntToString(status);
    InfixOfConcat(a, prefCode, b);
    var r := a + prefCode + b;
    assert r[|r| - |b|..] == b;
    r
  }

  /** `fetchMunicipalityGeoJson(prefCode)`: the listing must succeed; then every `.json`
      file is downloaded and the features are concatenated in file order. A failure is
      given by `String(err)` of what was thrown: the text of `fetch`'s own failure, or
      `Error: ` and the message of the `Error` raised for a listing that is not `ok`. */
  function FetchMunicipalityGeoJson(listing: ListingOracle, files: FileOracle, prefCode: string)
    : (r: Result<seq<Feature>, string>)
    ensures listing(BuildMunicipalityListUrl(prefCode)).NetworkFailure?
            ==> r == Err(listing(BuildMunicipalityListUrl(prefCode)).message)
    ensures listing(BuildMunicipalityListUrl(prefCode)).HttpReply? && !listing(BuildMunicipalityListUrl(prefCode)).ok
            ==> r == Err("Error: " + ListFailureMessage(prefCode, listing(BuildMunicipalityListUrl(prefCode)).status))
    ensures r.Ok? <==> listing(BuildMunicipalityListUrl(prefCode)).HttpReply? && listing(BuildMunicipalityListUrl(prefCode)).ok
    ensures r.Ok? ==> r.value == Flatten(Gather(files, JsonFiles(listing(BuildMunicipalityListUrl(prefCode)).body)))
  {
    match listing(BuildMunicipalityListUrl(prefCode))
    case NetworkFailure(m) => Err(m)
    case HttpReply(ok, status, entries) =>
      if !ok then Err("Error: " + ListFailureMessage(prefCode, status))
      else Ok(Flatten(Gather(files, JsonFiles(entries))))
  }

  /** The combined list holds every feature of every fetched file, in file order: the
      `j`-th feature of the `i`-th fetched (`.json`) file follows all features of the
      files before it. */
  lemma FeaturesInFileOrder(files: FileOracle, fetched: seq<FileEntry>, i: int, j: int)
    requires 0 <= i < |fetched| && 0 <= j < |FileFeatures(files, fetched[i])|
    ensures var per := Gather(files, fetched);
            SumLengths(per[..i]) + j < |Flatten(per)|
            && Flatten(per)[SumLengths(per[..i]) + j] == FileFeatures(files, fetched[i])[j]
  {
    var per := Gather(files, fetched);
    assert per[i] == FileFeatures(files, fetched[i]);
    FlattenAt(per, i, j);
  }

  /** Entries that are not `.json` files are never downloaded, so they change nothing. */
  lemma NonJsonEntryIgnored(files: FileOracle, entries: seq<FileEntry>, e: FileEntry)
    requires !IsJsonFile(e)
    ensures Flatten(Gather(files, JsonFiles(entries + [e]))) == Flatten(Gather(files, JsonFiles(entries)))
  {
    JsonFilesAppend(entries, [e]);
    assert JsonFiles([e]) == [];
    assert JsonFiles(entries) + [] == JsonFiles(entries);
  }

  /** Gathering one more entry appends that entry's features. */
  lemma GatherAppend(files: FileOracle, entries: seq<FileEntry>, e: FileEntry)
    ensures Gather(files, entries + [e]) == Gather(files, entries) + [FileFeatures(files, e)]
  {
  }

  /** A file whose download fails contributes nothing: the result is the one without it. */
  lemma FailedFileDropsOut(files: FileOracle, entries: seq<FileEntry>, e: FileEntry)
    requires IsJsonFile(e)
    requires files(e.downloadUrl).NetworkFailure? || !files(e.downloadUrl).ok
    ensures Flatten(Gather(files, JsonFiles(entries + [e]))) == Flatten(Gather(files, JsonFiles(entries)))
  {
    var json := JsonFiles(entries);
    assert JsonFiles(entries + [e]) == json + [e] by {
      JsonFilesAppend(entries, [e]);
      assert [e][..0] == [];
    }
    assert Gather(files, json + [e]) == Gather(files, json) + [[]] by {
      GatherAppend(files, json, e);
    }
    FlattenAppendEmpty(Gather(files, json));
  }
}
