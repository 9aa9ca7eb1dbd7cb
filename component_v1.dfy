/**
 * ComponentV1::ParseProgramMetadata: reads a component's program metadata
 * (a possibly null list of key/value pairs) into the paths of its "data"
 * and "assets" directories, written through two out-pointers.
 */
module ComponentV1 {
  import opened Wrappers

  /** fuchsia::sys::ProgramMetadata. */
  datatype ProgramMetadata = ProgramMetadata(key: string, value: string)

  const DataKey := "data"
  const AssetsKey := "assets"
  const PackagePrefix := "pkg/"

  /** A null metadata vector reads as an empty one. */
  function Entries(metadata: Option<seq<ProgramMetadata>>): seq<ProgramMetadata>
  {
    match metadata
    case None => []
    case Some(entries) => entries
  }

  /** The value of the last entry with `key`, if there is one. */
  function LastValue(entries: seq<ProgramMetadata>, key: string): (r: Option<string>)
    ensures r.None? <==> forall i :: 0 <= i < |entries| ==> entries[i].key != key
    ensures r.Some? ==> exists i :: 0 <= i < |entries| && entries[i].key == key && entries[i].value == r.value
                                    && forall j :: i < j < |entries| ==> entries[j].key != key
  {
    if entries == [] then None
    else if entries[|entries| - 1].key == key then Some(entries[|entries| - 1].value)
    else LastValue(entries[..|entries| - 1], key)
  }

  /** The path a key yields: the package-relative "pkg/" + value, or the out-string's prior contents. */
  function PathFor(entries: seq<ProgramMetadata>, key: string, prior: string): string
  {
    match LastValue(entries, key)
    case Some(v) => PackagePrefix + v
    case None => prior
  }

  /**
   * The paths left behind by a walk over the entries: a "data" entry sets
   * the data path, an "assets" entry the assets path, each to "pkg/" +
   * value, the last such entry winning; other keys are ignored. An assets
   * path still empty afterwards takes the data path's value.
   */
  function ParsedPaths(metadata: Option<seq<ProgramMetadata>>, dataPath: string, assetsPath: string): (string, string)
  {
    var data := PathFor(Entries(metadata), DataKey, dataPath);
    var assets := PathFor(Entries(metadata), AssetsKey, assetsPath);
    (data, if assets == "" then data else assets)
  }

  /**
   * Fills the two out-strings from the program metadata; `dataPath` and
   * `assetsPath` are the out-strings' contents on entry.
   */
  method ParseProgramMetadata(metadata: Option<seq<ProgramMetadata>>, dataPath: string, assetsPath: string)
    returns (dataPathOut: string, assetsPathOut: string)
    ensures (dataPathOut, assetsPathOut) == ParsedPaths(metadata, dataPath, assetsPath)
  {
    var entries := Entries(metadata);
    dataPathOut, assetsPathOut := dataPath, assetsPath;
    for i := 0 to |entries|
      invariant dataPathOut == PathFor(entries[..i], DataKey, dataPath)
      invariant assetsPathOut == PathFor(entries[..i], AssetsKey, assetsPath)
    {
      assert entries[..i + 1][..i] == entries[..i];
      var pg := entries[i];
      if pg.key == DataKey {
        dataPathOut := PackagePrefix + pg.value;
      } else if pg.key == AssetsKey {
        assetsPathOut := PackagePrefix + pg.value;
      }
    }
    assert entries[..|entries|] == entries;
    if assetsPathOut == "" {
      assetsPathOut := dataPathOut;
    }
  }

  /** Null metadata leaves two empty out-strings empty. */
  lemma NullMetadataGivesEmptyPaths()
    ensures ParsedPaths(None, "", "") == ("", "")
  {
  }

  /** An empty metadata vector is treated exactly like null, whatever the out-strings held. */
  lemma EmptyIsLikeNull(dataPath: string, assetsPath: string)
    ensures ParsedPaths(Some([]), dataPath, assetsPath) == ParsedPaths(None, dataPath, assetsPath)
  {
  }

  /** With only a "data" entry, both paths become "pkg/" + its value. */
  lemma AssetsDefaultsToData(v: string)
    ensures ParsedPaths(Some([ProgramMetadata(DataKey, v)]), "", "") == (PackagePrefix + v, PackagePrefix + v)
  {
    assert LastValue([ProgramMetadata(DataKey, v)], AssetsKey) == None;
  }

  /** An explicit "assets" entry decides the assets path, whatever the data entry or the priors. */
  lemma ExplicitAssetsIndependentOfData(entries: seq<ProgramMetadata>, v: string, dataPath: string, assetsPath: string)
    requires LastValue(entries, AssetsKey) == Some(v)
    ensures ParsedPaths(Some(entries), dataPath, assetsPath).1 == PackagePrefix + v
  {
    assert (PackagePrefix + v)[0] == 'p';
  }

  /** Dropping every entry whose key is neither "data" nor "assets", keeping the rest in order. */
  function KnownEntries(entries: seq<ProgramMetadata>): (r: seq<ProgramMetadata>)
    ensures forall i :: 0 <= i < |r| ==> r[i].key == DataKey || r[i].key == AssetsKey
    ensures multiset(r) <= multiset(entries)
    ensures forall e :: e in entries && (e.key == DataKey || e.key == AssetsKey) ==> e in r
    ensures forall e: ProgramMetadata :: e.key == DataKey || e.key == AssetsKey ==> multiset(r)[e] == multiset(entries)[e]
  {
    if entries == [] then []
    else
      var init, last := entries[..|entries| - 1], entries[|entries| - 1];
      assert entries == init + [last];
      if last.key == DataKey || last.key == AssetsKey then KnownEntries(init) + [last]
      else KnownEntries(init)
  }

  lemma {:induction false} LastValueOfKnown(entries: seq<ProgramMetadata>, key: string)
    requires key == DataKey || key == AssetsKey
    ensures LastValue(KnownEntries(entries), key) == LastValue(entries, key)
  {
    if entries != [] {
      var init := entries[..|entries| - 1];
      var last := entries[|entries| - 1];
      LastValueOfKnown(init, key);
      if last.key == DataKey || last.key == AssetsKey {
        assert KnownEntries(entries) == KnownEntries(init) + [last];
        assert (KnownEntries(init) + [last])[..|KnownEntries(init)|] == KnownEntries(init);
      }
    }
  }

  /** Keys other than "data" and "assets" are ignored. */
  lemma UnknownKeysIgnored(entries: seq<ProgramMetadata>, dataPath: string, assetsPath: string)
    ensures ParsedPaths(Some(entries), dataPath, assetsPath) == ParsedPaths(Some(KnownEntries(entries)), dataPath, assetsPath)
  {
    LastValueOfKnown(entries, DataKey);
    LastValueOfKnown(entries, AssetsKey);
  }

  /** The test's last case: {"not_data","foo"}, {"data","bar"}, {"assets","baz"}. */
  lemma ThreeEntryExample()
    ensures ParsedPaths(Some([ProgramMetadata("not_data", "foo"), ProgramMetadata(DataKey, "bar"),
                              ProgramMetadata(AssetsKey, "baz")]), "", "")
            == ("pkg/bar", "pkg/baz")
  {
    var entries := [ProgramMetadata("not_data", "foo"), ProgramMetadata(DataKey, "bar"), ProgramMetadata(AssetsKey, "baz")];
    assert entries[..2] == [ProgramMetadata("not_data", "foo"), ProgramMetadata(DataKey, "bar")];
    assert LastValue(entries, AssetsKey) == Some("baz");
    assert LastValue(entries, DataKey) == Some("bar");
    assert PackagePrefix + "bar" == "pkg/bar" && PackagePrefix + "baz" == "pkg/baz";
  }

  /**
   * The test's sequence of calls, reusing the two out-strings between the
   * first three calls and clearing them before the last.
   */
  method ParseProgramMetadataTest()
    returns (afterNull: (string, string), afterEmpty: (string, string),
             afterData: (string, string), afterAll: (string, string))
    ensures afterNull == ("", "") && afterEmpty == ("", "")
    ensures afterData == ("pkg/foobar", "pkg/foobar")
    ensures afterAll == ("pkg/bar", "pkg/baz")
  {
    var dataPath, assetsPath := "", "";
    dataPath, assetsPath := ParseProgramMetadata(None, dataPath, assetsPath);
    afterNull := (dataPath, assetsPath);
    dataPath, assetsPath := ParseProgramMetadata(Some([]), dataPath, assetsPath);
    afterEmpty := (dataPath, assetsPath);
    dataPath, assetsPath := ParseProgramMetadata(Some([ProgramMetadata(DataKey, "foobar")]), dataPath, assetsPath);
    AssetsDefaultsToData("foobar");
    assert PackagePrefix + "foobar" == "pkg/foobar";
    afterData := (dataPath, assetsPath);
    dataPath, assetsPath := "", "";
    dataPath, assetsPath := ParseProgramMetadata(
      Some([ProgramMetadata("not_data", "foo"), ProgramMetadata(DataKey, "bar"), ProgramMetadata(AssetsKey, "baz")]),
      dataPath, assetsPath);
    ThreeEntryExample();
    afterAll := (dataPath, assetsPath);
  }
}
