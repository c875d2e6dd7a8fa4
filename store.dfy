/**
  The record store (spacexexplorer/info_manager.py): it fetches every known
  collection from the remote provider, writes each to its own JSON file in the
  cache directory, and reads a collection back on demand.

  The cache directory is a map from file name to content. A file is opened
  for writing (and so created or truncated) before its provider is called,
  so a provider failure leaves that file empty. The provider is a function
  from collection key to either a value or a connection failure.
 */
module Store {
  import opened Builtins

  /** The collections the store knows, in the order of its key table. */
  const StaticKeys: seq<string> := ["company", "launches", "landpads", "rockets"]

  /** What one provider call gives: the collection, or a connection-level failure. */
  datatype Fetched<V> = Fetched(value: V) | ConnectionError

  /** A cache file: opened for writing but left empty, or holding a dumped value. */
  datatype Content<V> = Truncated | Json(value: V)

  /**
    What `get` gives: the stored value, FileNotFoundError (with its message),
    a decoding error (the file is empty), or None for a key the store does not know.
   */
  datatype GetResult<V> = Found(value: V) | FileNotFound(message: string) | DecodeError | NotStatic

  /** The outcome of one fetch pass: the directory afterwards, the keys whose provider was called, and whether one failed. */
  datatype FetchOutcome<V> = FetchOutcome(files: map<string, Content<V>>, requested: seq<string>, failed: bool)

  function FileName(key: string): string
  {
    key + ".json"
  }

  function PathOf(location: string, key: string): string
  {
    location + "/" + FileName(key)
  }

  /** Different keys are stored in different files. */
  lemma FileNameInjective(a: string, b: string)
    requires FileName(a) == FileName(b)
    ensures a == b
  {
    assert |a| == |b|;
    assert a == FileName(a)[..|a|];
    assert b == FileName(b)[..|b|];
  }

  /**
    `fetch_static` over the given keys, in order: for each key the file is
    opened for writing, then the provider is called and its value dumped; a
    failing provider ends the pass, leaving its file empty.
   */
  function FetchAll<V>(files: map<string, Content<V>>, keys: seq<string>, provider: string -> Fetched<V>): (r: FetchOutcome<V>)
    ensures r.requested <= keys
    ensures !r.failed ==> r.requested == keys
    ensures r.failed ==> r.requested != [] && provider(r.requested[|r.requested| - 1]).ConnectionError?
    ensures forall j :: 0 <= j < |r.requested| ==>
      (provider(r.requested[j]).Fetched? <==> !(r.failed && j == |r.requested| - 1))
  {
    FetchPassShape(files, keys, provider, []);
    assert [] + keys == keys;
    FetchFrom(files, keys, provider, [])
  }

  /** The rest of a pass, after the providers of `requested` have been called. */
  function FetchFrom<V>(files: map<string, Content<V>>, keys: seq<string>, provider: string -> Fetched<V>,
                        requested: seq<string>): (r: FetchOutcome<V>)
    ensures |requested| <= |r.requested| <= |requested| + |keys|
    ensures r.failed ==> |r.requested| > |requested|
    decreases |keys|
  {
    if keys == [] then FetchOutcome(files, requested, false)
    else
      var emptied := files[FileName(keys[0]) := Truncated];
      match provider(keys[0])
      case ConnectionError => FetchOutcome(emptied, requested + [keys[0]], true)
      case Fetched(v) => FetchFrom(emptied[FileName(keys[0]) := Json(v)], keys[1..], provider, requested + [keys[0]])
  }

  /**
    `get`: a known key whose file holds a value yields that value; a known key
    without a file raises FileNotFoundError telling the caller to run
    `fetch_static()`; an unknown key yields None.
   */
  function Read<V>(files: map<string, Content<V>>, keys: seq<string>, location: string, infoType: string): (r: GetResult<V>)
    ensures r.NotStatic? <==> infoType !in keys
    ensures r.FileNotFound? <==> infoType in keys && FileName(infoType) !in files
    ensures r.FileNotFound? ==>
      r.message == "File " + PathOf(location, infoType) + " not available, please run fetch_static()"
    ensures r.Found? ==> infoType in keys && FileName(infoType) in files && files[FileName(infoType)] == Json(r.value)
    ensures r.DecodeError? ==> infoType in keys && FileName(infoType) in files && files[FileName(infoType)] == Truncated
  {
    if infoType in keys then
      var name := FileName(infoType);
      if name !in files then
        FileNotFound("File " + PathOf(location, infoType) + " not available, please run fetch_static()")
      else
        match files[name]
        case Truncated => DecodeError
        case Json(v) => Found(v)
    else NotStatic
  }

  /**
    A pass calls the providers of a prefix of its keys, in order; it fails
    exactly when the last provider called failed, and every provider before
    that one answered.
   */
  lemma {:induction false} FetchPassShape<V>(
    files: map<string, Content<V>>, keys: seq<string>, provider: string -> Fetched<V>, acc: seq<string>)
    ensures var r := FetchFrom(files, keys, provider, acc);
      && acc <= r.requested && r.requested <= acc + keys
      && (!r.failed ==> r.requested == acc + keys)
      && (r.failed ==> provider(r.requested[|r.requested| - 1]).ConnectionError?)
      && (forall j :: |acc| <= j < |r.requested| ==>
           (provider(r.requested[j]).Fetched? <==> !(r.failed && j == |r.requested| - 1)))
    decreases |keys|
  {
    if keys != [] {
      var k0 := keys[0];
      assert acc + [k0] + keys[1..] == acc + keys;
      if provider(k0).Fetched? {
        var next := files[FileName(k0) := Json(provider(k0).value)];
        FetchFromStep(files, keys, provider, acc);
        FetchPassShape(next, keys[1..], provider, acc + [k0]);
      }
    }
  }

  /** One step of a pass whose first provider answers: its file ends up holding the value. */
  lemma FetchFromStep<V>(files: map<string, Content<V>>, keys: seq<string>, provider: string -> Fetched<V>, acc: seq<string>)
    requires keys != [] && provider(keys[0]).Fetched?
    ensures FetchFrom(files, keys, provider, acc) ==
      FetchFrom(files[FileName(keys[0]) := Json(provider(keys[0]).value)], keys[1..], provider, acc + [keys[0]])
  {
    var k0 := keys[0];
    assert files[FileName(k0) := Truncated][FileName(k0) := Json(provider(k0).value)]
      == files[FileName(k0) := Json(provider(k0).value)];
  }

  /** A pass in which every provider answers calls them all, in key order. */
  lemma {:induction false} FetchCallsEveryProvider<V>(
    files: map<string, Content<V>>, keys: seq<string>, provider: string -> Fetched<V>, acc: seq<string>)
    requires forall k :: k in keys ==> provider(k).Fetched?
    ensures !FetchFrom(files, keys, provider, acc).failed
    ensures FetchFrom(files, keys, provider, acc).requested == acc + keys
    decreases |keys|
  {
    if keys != [] {
      FetchFromStep(files, keys, provider, acc);
      FetchCallsEveryProvider(files[FileName(keys[0]) := Json(provider(keys[0]).value)], keys[1..], provider, acc + [keys[0]]);
      assert acc + [keys[0]] + keys[1..] == acc + keys;
    }
  }

  /**
    A pass in which every provider answers leaves one file per key holding that
    key's value, and every other file as it was.
   */
  lemma {:induction false} FetchWritesEveryFile<V>(
    files: map<string, Content<V>>, keys: seq<string>, provider: string -> Fetched<V>, acc: seq<string>)
    requires forall k :: k in keys ==> provider(k).Fetched?
    ensures forall k :: k in keys ==>
      FileName(k) in FetchFrom(files, keys, provider, acc).files &&
      FetchFrom(files, keys, provider, acc).files[FileName(k)] == Json(provider(k).value)
    ensures forall f :: f !in FileNames(keys) ==>
      (f in FetchFrom(files, keys, provider, acc).files <==> f in files) &&
      (f in files ==> FetchFrom(files, keys, provider, acc).files[f] == files[f])
    decreases |keys|
  {
    if keys != [] {
      var k0 := keys[0];
      var next := files[FileName(k0) := Json(provider(k0).value)];
      FetchFromStep(files, keys, provider, acc);
      FetchWritesEveryFile(next, keys[1..], provider, acc + [k0]);
      var out := FetchFrom(next, keys[1..], provider, acc + [k0]).files;
      assert FetchFrom(files, keys, provider, acc).files == out;
      forall k | k in keys
        ensures FileName(k) in out && out[FileName(k)] == Json(provider(k).value)
      {
        if k !in keys[1..] {
          assert k == k0;
          if FileName(k0) in FileNames(keys[1..]) {
            var k' :| k' in keys[1..] && FileName(k') == FileName(k0);
            FileNameInjective(k0, k');
          }
        }
      }
    }
  }

  /** The file names of the given keys. */
  function FileNames(keys: seq<string>): set<string>
  {
    set k | k in keys :: FileName(k)
  }

  /**
    A pass stops at the first provider that fails: the providers of the keys
    before it and its own have been called, the earlier files hold their
    values, its file exists but is empty, and no later file is touched.
   */
  lemma {:induction false} FetchStopsAtFailure<V>(
    files: map<string, Content<V>>, keys: seq<string>, provider: string -> Fetched<V>, acc: seq<string>, j: nat)
    requires j < |keys| && provider(keys[j]).ConnectionError?
    requires forall i :: 0 <= i < j ==> provider(keys[i]).Fetched?
    ensures FetchFrom(files, keys, provider, acc).failed
    ensures FetchFrom(files, keys, provider, acc).requested == acc + keys[..j + 1]
    ensures FetchFrom(files, keys, provider, acc).files ==
      FetchFrom(files, keys[..j], provider, acc).files[FileName(keys[j]) := Truncated]
    decreases j
  {
    if j > 0 {
      var k0 := keys[0];
      var next := files[FileName(k0) := Json(provider(k0).value)];
      FetchFromStep(files, keys, provider, acc);
      FetchFromStep(files, keys[..j], provider, acc);
      FetchStopsAtFailure(next, keys[1..], provider, acc + [k0], j - 1);
      assert keys[1..][..j] == keys[1..j + 1];
      assert keys[..j + 1] == [k0] + keys[1..j + 1];
      assert keys[..j][1..] == keys[1..][..j - 1];
    }
  }

  /** The keys of the store's table have pairwise different files, four in all. */
  lemma StaticFileNames()
    ensures FileNames(StaticKeys) == {"company.json", "launches.json", "landpads.json", "rockets.json"}
    ensures |FileNames(StaticKeys)| == 4
  {
    assert FileName("company") == "company.json";
    assert FileName("launches") == "launches.json";
    assert FileName("landpads") == "landpads.json";
    assert FileName("rockets") == "rockets.json";
    assert forall k :: k in StaticKeys <==> k == "company" || k == "launches" || k == "landpads" || k == "rockets";
  }

  /**
    After a pass in which every provider answers, `get` of each known key gives
    what its provider returned.
   */
  lemma FetchThenGet<V>(files: map<string, Content<V>>, location: string, provider: string -> Fetched<V>)
    requires forall k :: k in StaticKeys ==> provider(k).Fetched?
    ensures !FetchAll(files, StaticKeys, provider).failed
    ensures forall k :: k in StaticKeys ==>
      Read(FetchAll(files, StaticKeys, provider).files, StaticKeys, location, k) == Found(provider(k).value)
  {
    FetchCallsEveryProvider(files, StaticKeys, provider, []);
    FetchWritesEveryFile(files, StaticKeys, provider, []);
  }

  /** A pass in which every provider answers, run in an empty directory, leaves exactly four files. */
  lemma FetchFillsEmptyDirectory<V>(provider: string -> Fetched<V>)
    requires forall k :: k in StaticKeys ==> provider(k).Fetched?
    ensures |FetchAll(map[], StaticKeys, provider).files| == 4
  {
    FetchWritesEveryFile(map[], StaticKeys, provider, []);
    StaticFileNames();
    var out := FetchFrom(map[], StaticKeys, provider, []).files;
    assert out.Keys == FileNames(StaticKeys);
  }

  /**
    When a known key's file is missing (no pass was run in this directory),
    `get` raises FileNotFoundError telling the caller to run `fetch_static()`;
    it never yields data.
   */
  lemma GetBeforeFetch<V>(files: map<string, Content<V>>, location: string, infoType: string)
    requires infoType in StaticKeys && FileName(infoType) !in files
    ensures Read(files, StaticKeys, location, infoType).FileNotFound?
    ensures var m := Read(files, StaticKeys, location, infoType).message;
      |m| >= 25 && m[|m| - 25..] == "please run fetch_static()"
  {
  }

  /** "launchpads" is not in the key table, so `get("launchpads")` yields None whatever the directory holds. */
  lemma LaunchpadsIsNotStatic<V>(files: map<string, Content<V>>, location: string)
    ensures Read(files, StaticKeys, location, "launchpads") == NotStatic
  {
  }

  /** The record store: its directory, its key table and the provider behind it. */
  class InfoManager<V> {
    const location: string
    const staticFiles: seq<string>
    const provider: string -> Fetched<V>
    var files: map<string, Content<V>>

    /** `files` is what the directory at `location` already holds. */
    constructor(location: string, provider: string -> Fetched<V>, files: map<string, Content<V>>)
      ensures this.location == location && this.provider == provider && this.files == files
      ensures staticFiles == StaticKeys
    {
      this.location := location;
      this.provider := provider;
      this.files := files;
      staticFiles := StaticKeys;
    }

    method FetchStatic() returns (requested: seq<string>, failed: bool)
      modifies this
      ensures FetchOutcome(files, requested, failed) == FetchAll(old(files), staticFiles, provider)
    {
      requested := [];
      var i := 0;
      while i < |staticFiles|
        invariant 0 <= i <= |staticFiles|
        invariant requested == staticFiles[..i]
        invariant FetchAll(old(files), staticFiles, provider) == FetchFrom(files, staticFiles[i..], provider, requested)
      {
        var filename := staticFiles[i];
        assert staticFiles[i..][1..] == staticFiles[i + 1..];
        files := files[FileName(filename) := Truncated];
        requested := requested + [filename];
        var data := provider(filename);
        if data.ConnectionError? {
          failed := true;
          return;
        }
        files := files[FileName(filename) := Json(data.value)];
        i := i + 1;
      }
      failed := false;
    }

    /** `get` only reads the directory, so calls in a row agree; a key outside the table yields None. */
    function Get(infoType: string): (r: GetResult<V>)
      reads this
      ensures r.NotStatic? <==> infoType !in staticFiles
      ensures r.Found? ==> FileName(infoType) in files && files[FileName(infoType)] == Json(r.value)
    {
      Read(files, staticFiles, location, infoType)
    }

    /** Copying the files elsewhere is not implemented: nothing changes. */
    method SaveStatic(destination: string)
      ensures unchanged(this)
    {
    }
  }
}
