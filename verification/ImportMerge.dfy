/**
 * Importing a compiled bundle: its sorted audio table and the database's sorted groups are merged
 * into a row-id index over the bundle's own pack.
 */
module ImportMerge {
  import opened Wrappers
  import opened Text
  import opened LittleEndian
  import opened Strings
  import Layout
  import opened Groups
  import PB = PackBuilder
  import PackIndex
  import opened Compile
  import opened CompileTables

  type Record = PB.Record

  /** What the importer knows of the bundle. */
  datatype RustBundle = RustBundle(
    recordCount: nat, audio: seq<Layout.AudioEntry>, strings: seq<byte>, sourceIds: seq<Text>, packSize: nat)

  /** Decodes as UTF-8 and is relative, without empty, `.` or `..` parts. */
  type PathCheck = Text -> bool

  function RecordOf(entry: Layout.AudioEntry): Record {
    PB.Record(entry.packOffset, entry.length, entry.mime, PB.RECORD_VALID)
  }

  /** The key of one audio record, or the error that ends the import. */
  function ReadAsset(bundle: RustBundle, i: nat, safe: PathCheck): Result<AudioKey>
    requires i < |bundle.audio|
  {
    var entry := bundle.audio[i];
    if entry.source >= |bundle.sourceIds| || !(1 <= entry.mime <= 6) then Err("audio record has invalid metadata")
    else if StringBytes(bundle.strings, entry.path).Err? then Err("audio record has an invalid path")
    else if !safe(StringBytes(bundle.strings, entry.path).value) then Err("audio record path is unsafe")
    else if entry.length == 0 || entry.length > PB.MAX_AUDIO_BYTES || entry.packOffset > bundle.packSize - entry.length
    then Err("audio record is outside audio.pack")
    else Ok(AudioKey(bundle.sourceIds[entry.source], StringBytes(bundle.strings, entry.path).value))
  }

  /** Record `i` is sound and belongs to group `i`. */
  ghost predicate Paired(bundle: RustBundle, groups: seq<Group>, i: nat, safe: PathCheck)
    requires i < |bundle.audio| && i < |groups|
  {
    ReadAsset(bundle, i, safe) == Ok(groups[i].key)
  }

  /** The two streams are the same sequence of keys. */
  ghost predicate Matches(bundle: RustBundle, groups: seq<Group>, safe: PathCheck) {
    && |bundle.audio| == |groups|
    && (forall i :: 0 <= i < |groups| ==> Paired(bundle, groups, i, safe))
  }

  /** What a successful import needs. */
  ghost predicate Importable(rows: seq<Entry>, bundle: RustBundle, safe: PathCheck) {
    |rows| == bundle.recordCount && |bundle.audio| > 0 && Matches(bundle, GroupsOf(rows), safe)
  }

  ghost predicate Carries(index: seq<Record>, id: nat, entry: Layout.AudioEntry) {
    id < |index| && index[id] == RecordOf(entry)
  }

  /** Rows of the first `n` groups carry their own asset's range; all others are empty. */
  ghost predicate Indexed(index: seq<Record>, bundle: RustBundle, groups: seq<Group>, n: nat)
    requires n <= |groups| && n <= |bundle.audio|
  {
    && (forall i, id :: 0 <= i < n && id in groups[i].ids ==> Carries(index, id, bundle.audio[i]))
    && (forall id :: 0 <= id < |index| && (forall i :: 0 <= i < n ==> id !in groups[i].ids) ==> index[id] == PB.EMPTY)
  }

  lemma IndexStep(
    index: seq<Record>, bundle: RustBundle, groups: seq<Group>, n: nat)
    requires GoodGroups(groups) && PB.InRange(groups, |index|)
    requires n < |groups| && n < |bundle.audio| && Indexed(index, bundle, groups, n)
    ensures Indexed(PB.Stamp(index, groups[n].ids, RecordOf(bundle.audio[n])), bundle, groups, n + 1)
  {
    hide KeyBefore, RecordOf;
    var after := PB.Stamp(index, groups[n].ids, RecordOf(bundle.audio[n]));
    forall i, id | 0 <= i < n + 1 && id in groups[i].ids
      ensures Carries(after, id, bundle.audio[i])
    {
      if i < n {
        assert Carries(index, id, bundle.audio[i]);
        assert id !in groups[n].ids;
      }
    }
  }

  method WriteRecords(index: seq<Record>, ids: seq<nat>, record: Record) returns (after: seq<Record>)
    requires forall id :: id in ids ==> id < |index|
    ensures after == PB.Stamp(index, ids, record)
  {
    after := index;
    for k := 0 to |ids|
      invariant after == PB.Stamp(index, ids[..k], record)
    {
      assert ids[..k + 1] == ids[..k] + [ids[k]];
      assert ids[k] in ids;
      after := after[ids[k] := record];
    }
    assert ids[..|ids|] == ids;
  }

  lemma {:induction false} RowsInGroups(rows: seq<Entry>)
    ensures PackIndex.RowCount(GroupsOf(rows)) == |rows|
  {
    if rows != [] {
      var front, last := rows[..|rows| - 1], rows[|rows| - 1];
      RowsInGroups(front);
      var groups := GroupsOf(front);
      assert AddRow(groups, last)[..|AddRow(groups, last)| - 1]
          == if groups != [] && groups[|groups| - 1].key == last.key then groups[..|groups| - 1] else groups;
    }
  }

  /**
   * The merge of `_import_rust_bundle_locked`. It succeeds exactly when the counts agree and every
   * audio record pairs with its group; then every row carries the range of its own asset and none
   * is left out. The checks of order and of the assigned row count never decide alone.
   */
  method Merge(rows: seq<Entry>, maximumId: nat, bundle: RustBundle, safe: PathCheck)
    returns (r: Result<seq<Record>>)
    requires OrderedEntries(rows) && forall k :: 0 <= k < |rows| ==> rows[k].id <= maximumId
    ensures r.Ok? <==> Importable(rows, bundle, safe)
    ensures r.Ok? ==> |r.value| == maximumId + 1 && |bundle.audio| == |GroupsOf(rows)|
    ensures r.Ok? ==> Indexed(r.value, bundle, GroupsOf(rows), |GroupsOf(rows)|)
    ensures r.Ok? ==> forall k :: 0 <= k < |rows| ==> r.value[rows[k].id] != PB.EMPTY
  {
    hide OrderedEntries, GroupsOf, Indexed, ReadAsset, PB.Stamp, RecordOf, GoodGroups;
    if |rows| != bundle.recordCount {
      return Err("Rust bundle and entries.db have different row counts");
    }
    if |bundle.audio| == 0 {
      return Err("Rust bundle audio table is empty");
    }
    var groups := AllGroups(rows);
    GroupsInRange(rows, maximumId);
    var index := seq(maximumId + 1, _ => PB.EMPTY);
    NothingIndexed(index, bundle, groups);
    var previous: Option<AudioKey>, valid := None, 0;
    for i := 0 to |bundle.audio|
      invariant i <= |groups| && |index| == maximumId + 1
      invariant forall j :: 0 <= j < i ==> Paired(bundle, groups, j, safe)
      invariant previous == if i == 0 then None else Some(groups[i - 1].key)
      invariant valid == PackIndex.RowCount(groups[..i])
      invariant Indexed(index, bundle, groups, i)
    {
      assert i < |groups| ==> (Paired(bundle, groups, i, safe) <==> ReadAsset(bundle, i, safe) == Ok(groups[i].key));
      var key :- ReadAsset(bundle, i, safe);
      if i > 0 && i < |groups| { GroupOrder(groups, i); }
      if previous.Some? && !KeyBefore(previous.value, key) {
        return Err("Rust audio table is not strictly sorted by source/path");
      }
      previous := Some(key);
      if i >= |groups| {
        return Err("Rust audio table has more assets than entries.db");
      }
      var group := groups[i];
      if group.key != key {
        return Err("Rust bundle does not match entries.db");
      }
      IndexStep(index, bundle, groups, i);
      index := WriteRecords(index, group.ids, RecordOf(bundle.audio[i]));
      assert groups[..i + 1][..i] == groups[..i];
      valid := valid + |group.ids|;
    }
    if |bundle.audio| < |groups| {
      return Err("entries.db has assets missing from the Rust audio table");
    }
    assert groups[..|groups|] == groups;
    RowsInGroups(rows);
    if valid != |rows| {
      return Err("not every entries.db row was assigned packed audio");
    }
    EveryRowIndexed(index, bundle, rows);
    r := Ok(index);
  }

  method AllGroups(rows: seq<Entry>) returns (groups: seq<Group>)
    ensures groups == GroupsOf(rows)
  {
    groups := GroupRows(rows, None, None);
    Sorting.KeepAll(rows, Within(None, None));
  }

  lemma GroupsInRange(rows: seq<Entry>, maximumId: nat)
    requires OrderedEntries(rows) && forall k :: 0 <= k < |rows| ==> rows[k].id <= maximumId
    ensures GoodGroups(GroupsOf(rows)) && PB.InRange(GroupsOf(rows), maximumId + 1)
    ensures GroupsCover(GroupsOf(rows), rows)
  {
    hide OrderedEntries;
    GroupsGood(rows);
    var groups := GroupsOf(rows);
    forall i, id | 0 <= i < |groups| && id in groups[i].ids ensures id <= maximumId {
      assert Entry(id, groups[i].key) in rows;
    }
  }

  lemma NothingIndexed(index: seq<Record>, bundle: RustBundle, groups: seq<Group>)
    requires forall id :: 0 <= id < |index| ==> index[id] == PB.EMPTY
    ensures Indexed(index, bundle, groups, 0)
  {
  }

  lemma GroupOrder(groups: seq<Group>, i: nat)
    requires GoodGroups(groups) && 0 < i < |groups|
    ensures KeyBefore(groups[i - 1].key, groups[i].key)
  {
  }

  lemma EveryRowIndexed(index: seq<Record>, bundle: RustBundle, rows: seq<Entry>)
    requires GroupsCover(GroupsOf(rows), rows) && |bundle.audio| == |GroupsOf(rows)|
    requires Indexed(index, bundle, GroupsOf(rows), |GroupsOf(rows)|)
    ensures forall k :: 0 <= k < |rows| ==> rows[k].id < |index| && index[rows[k].id] != PB.EMPTY
  {
    hide GroupsOf;
    var groups := GroupsOf(rows);
    forall k | 0 <= k < |rows| ensures rows[k].id < |index| && index[rows[k].id] != PB.EMPTY {
      assert InGroup(groups, rows[k]);
      var i :| 0 <= i < |groups| && groups[i].key == rows[k].key && rows[k].id in groups[i].ids;
      assert Carries(index, rows[k].id, bundle.audio[i]);
    }
  }

  /** What an accepted audio record says. */
  ghost predicate SoundAsset(bundle: RustBundle, i: nat, key: AudioKey, safe: PathCheck)
    requires i < |bundle.audio|
  {
    var entry := bundle.audio[i];
    && entry.source < |bundle.sourceIds| && bundle.sourceIds[entry.source] == key.source
    && StringBytes(bundle.strings, entry.path) == Ok(key.file) && safe(key.file)
    && 1 <= entry.mime <= 6 && 0 < entry.length <= PB.MAX_AUDIO_BYTES
    && entry.packOffset + entry.length <= bundle.packSize
  }

  lemma AssetAccepted(bundle: RustBundle, i: nat, key: AudioKey, safe: PathCheck)
    requires i < |bundle.audio|
    ensures ReadAsset(bundle, i, safe) == Ok(key) <==> SoundAsset(bundle, i, key, safe)
  {
  }

  /** The record a row received is that of the asset with the row's own source and file. */
  lemma RowGetsItsAsset(
    index: seq<Record>, bundle: RustBundle, rows: seq<Entry>, safe: PathCheck, k: nat) returns (i: nat)
    requires OrderedEntries(rows) && Matches(bundle, GroupsOf(rows), safe)
    requires Indexed(index, bundle, GroupsOf(rows), |GroupsOf(rows)|) && k < |rows|
    ensures i < |bundle.audio| && SoundAsset(bundle, i, rows[k].key, safe)
    ensures rows[k].id < |index| && index[rows[k].id] == RecordOf(bundle.audio[i])
    ensures PackIndex.AudioPack(index, seq(bundle.packSize, _ => 0), 0).Get(rows[k].id)
         == Some(PackIndex.PackedAudio(rows[k].id, bundle.audio[i].packOffset, bundle.audio[i].length,
                                      bundle.audio[i].mime))
  {
    GroupsGood(rows);
    hide GroupsOf;
    var groups := GroupsOf(rows);
    assert InGroup(groups, rows[k]);
    i :| 0 <= i < |groups| && groups[i].key == rows[k].key && rows[k].id in groups[i].ids;
    assert Paired(bundle, groups, i, safe) && Carries(index, rows[k].id, bundle.audio[i]);
    AssetAccepted(bundle, i, rows[k].key, safe);
    hide ReadAsset, Matches;
  }

  /* ---- Bundles compiled from the same rows. ---- */

  /** `collect_assets`: one asset per distinct (source, file), in that order. */
  ghost predicate CollectedFrom(assets: seq<Asset>, groups: seq<Group>, sources: seq<Source>) {
    && |assets| == |groups|
    && (forall i :: 0 <= i < |assets| ==>
          SourceIndex(sources, groups[i].key.source) == Some(assets[i].source) && assets[i].path == groups[i].key.file)
  }

  /** The source is configured, the path is safe and its extension is known. */
  predicate Collectable(key: AudioKey, sources: seq<Source>, safe: PathCheck, mimeOf: Text -> nat) {
    SourceIndex(sources, key.source).Some? && safe(key.file) && mimeOf(key.file) > 0
  }

  method CollectAssets(rows: seq<Entry>, sources: seq<Source>, safe: PathCheck, mimeOf: Text -> nat)
    returns (r: Result<seq<Asset>>)
    ensures r.Ok? <==> |GroupsOf(rows)| < U32_LIMIT
                       && forall group :: group in GroupsOf(rows) ==> Collectable(group.key, sources, safe, mimeOf)
    ensures r.Ok? ==> CollectedFrom(r.value, GroupsOf(rows), sources) && |r.value| < U32_LIMIT
    ensures r.Ok? ==> forall i :: 0 <= i < |r.value| ==>
              safe(r.value[i].path) && r.value[i].mime == mimeOf(r.value[i].path) && r.value[i].mime > 0
  {
    hide GroupsOf, SourceIndex;
    var groups := AllGroups(rows);
    var assets: seq<Asset> := [];
    for i := 0 to |groups|
      invariant CollectedFrom(assets, groups[..i], sources)
      invariant forall j :: 0 <= j < i ==> Collectable(groups[j].key, sources, safe, mimeOf)
      invariant forall j :: 0 <= j < i ==>
                  safe(assets[j].path) && assets[j].mime == mimeOf(assets[j].path) && assets[j].mime > 0
    {
      assert groups[i] in groups;
      var index := SourceIndex(sources, groups[i].key.source);
      if index.None? {
        return Err("entries.db references unconfigured source");
      }
      if !safe(groups[i].key.file) {
        return Err("unsafe relative path");
      }
      var mime := mimeOf(groups[i].key.file);
      if mime == 0 {
        return Err("unsupported audio extension");
      }
      assets := assets + [Asset(index.value, groups[i].key.file, 0, 0, 0, mime)];
    }
    assert groups[..|groups|] == groups;
    if |assets| >= U32_LIMIT {
      return Err("more than 2^32 audio assets");
    }
    r := Ok(assets);
  }

  /** Group keys strictly rise, so no asset is listed twice. */
  lemma CollectedDistinct(assets: seq<Asset>, groups: seq<Group>, sources: seq<Source>)
    requires CollectedFrom(assets, groups, sources) && GoodGroups(groups)
    ensures DistinctAssets(assets)
  {
    forall i, j | 0 <= i < j < |assets|
      ensures assets[i].source != assets[j].source || assets[i].path != assets[j].path
    {
      KeyBeforeIrreflexive(groups[i].key);
      assert KeyBefore(groups[i].key, groups[j].key);
      assert groups[i].key != groups[j].key;
    }
  }

  lemma SomeGroups(rows: seq<Entry>)
    ensures GroupsOf(rows) == [] <==> rows == []
  {
    RowsInGroups(rows);
  }

  lemma CompiledAssetRead(bundle: RustBundle, i: nat, asset: Asset, sources: seq<Source>, safe: PathCheck)
    requires i < |bundle.audio| && AudioMeans(bundle.strings, bundle.audio[i], asset)
    requires asset.source < |sources| && bundle.sourceIds == Ids(sources)
    requires safe(asset.path) && 1 <= asset.mime <= 6 && 0 < asset.length <= PB.MAX_AUDIO_BYTES
    requires asset.packOffset + asset.length <= bundle.packSize
    ensures ReadAsset(bundle, i, safe) == Ok(AudioKey(sources[asset.source].id, asset.path))
  {
    assert StringBytes(bundle.strings, bundle.audio[i].path) == Ok(asset.path);
  }

  /**
   * The merge accepts every bundle the compiler builds from the same rows, when there are any, paths
   * are safe and every file has between one byte and 64 MiB.
   */
  lemma {:induction false} CompiledBundleImports(
    bundle: RustBundle, assets: seq<Asset>, rows: seq<Entry>, sources: seq<Source>, safe: PathCheck)
    requires CollectedFrom(assets, GroupsOf(rows), sources) && |bundle.audio| == |assets|
    requires bundle.sourceIds == Ids(sources) && bundle.recordCount == |rows|
    requires forall i :: 0 <= i < |assets| ==> AudioMeans(bundle.strings, bundle.audio[i], assets[i])
    requires forall i :: 0 <= i < |assets| ==>
               safe(assets[i].path) && 1 <= assets[i].mime <= 6
               && 0 < assets[i].length <= PB.MAX_AUDIO_BYTES
               && assets[i].packOffset + assets[i].length <= bundle.packSize
    ensures Importable(rows, bundle, safe) <==> rows != []
  {
    SomeGroups(rows);
    hide GroupsOf, AudioMeans;
    var groups := GroupsOf(rows);
    forall i | 0 <= i < |groups| ensures Paired(bundle, groups, i, safe) {
      assert AudioMeans(bundle.strings, bundle.audio[i], assets[i]);
      CompiledAssetRead(bundle, i, assets[i], sources, safe);
    }
  }
}
