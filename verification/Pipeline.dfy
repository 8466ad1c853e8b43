/** From the database and the audio files to an answer: `compile`, `Bundle::open` and a query. */
module Pipeline {
  import opened Wrappers
  import opened Text
  import opened LittleEndian
  import opened Sorting
  import opened Strings
  import opened Layout
  import opened Bundle
  import opened Mph
  import opened Lookup
  import opened Structure
  import opened Compile
  import opened CompileTables
  import opened Selection
  import opened Query
  import opened Groups
  import AP = AudioPacker
  import IM = ImportMerge

  /** Absolute path of a file of a source. */
  type Locate = (nat, Text) -> Text

  /** What a compilation reads; `listing` is the database once more, ordered by file. */
  datatype Inputs = Inputs(
    rows: seq<Row>, listing: seq<Entry>, sources: seq<Source>, safe: IM.PathCheck, mimeOf: Text -> nat,
    locate: Locate, files: AP.Files, digest: AP.Digest, dedup: bool, workers: nat,
    hash: Hash, seeded: Seeded, checksum: seq<byte> -> seq<byte>)

  function FileOf(row: Row): AudioKey {
    AudioKey(row.source, row.file)
  }

  ghost predicate Listed(listing: seq<Entry>, key: AudioKey) {
    exists k :: 0 <= k < |listing| && listing[k].key == key
  }

  ghost predicate Used(rows: seq<Row>, key: AudioKey) {
    exists row :: row in rows && FileOf(row) == key
  }

  /** Both listings of the database name the same files. */
  ghost predicate SameFiles(listing: seq<Entry>, rows: seq<Row>) {
    && (forall row :: row in rows ==> Listed(listing, FileOf(row)))
    && (forall k :: 0 <= k < |listing| ==> Used(rows, listing[k].key))
  }

  ghost predicate GoodInputs(w: Inputs) {
    && OrderedRows(w.rows) && |w.rows| < U32_LIMIT
    && OrderedEntries(w.listing) && SameFiles(w.listing, w.rows)
    && DistinctSources(w.sources) && |w.sources| < U16_LIMIT && 0 < w.workers <= 64
    && GoodFunctions(w)
  }

  /** The widths of the hash, the media tag and the checksum. */
  ghost predicate GoodFunctions(w: Inputs) {
    && (forall text :: w.hash(text) < U64_LIMIT)
    && (forall path :: w.mimeOf(path) <= 6)
    && (forall payload :: |w.checksum(payload)| == CHECKSUM_END - CHECKSUM_OFFSET)
  }

  /** The files of a listing, as the packer opens them. */
  function PathsOf(groups: seq<Group>, sources: seq<Source>, locate: Locate): (paths: seq<Text>)
    ensures |paths| == |groups|
    ensures forall i :: 0 <= i < |groups| ==>
              paths[i] == locate(SourceIndex(sources, groups[i].key.source).GetOr(0), groups[i].key.file)
  {
    seq(|groups|, i requires 0 <= i < |groups| =>
      locate(SourceIndex(sources, groups[i].key.source).GetOr(0), groups[i].key.file))
  }

  function Paths(w: Inputs): seq<Text> {
    PathsOf(GroupsOf(w.listing), w.sources, w.locate)
  }

  /** Every file can be collected and packed. */
  ghost predicate Buildable(w: Inputs) {
    && |GroupsOf(w.listing)| < U32_LIMIT
    && (forall group :: group in GroupsOf(w.listing) ==> IM.Collectable(group.key, w.sources, w.safe, w.mimeOf))
    && AP.Packable(Paths(w), w.files)
  }

  /** Every text of the database rows, each counted once. */
  function InputTexts(w: Inputs): set<Text> {
    (set row, text | row in w.rows && text in RowTexts(row, w.sources) :: text) + (set row | row in w.rows :: row.file)
  }

  /* ---- Assets after packing. ---- */

  /** `write_pack` fills in the ranges. */
  function Ranged(assets: seq<Asset>, ranges: seq<AP.Range>): (ranged: seq<Asset>)
    requires |ranges| == |assets|
    ensures |ranged| == |assets|
    ensures forall i :: 0 <= i < |assets| ==>
              ranged[i] == Asset(assets[i].source, assets[i].path, ranges[i].offset, ranges[i].length,
                                 ranges[i].prefix, assets[i].mime)
  {
    seq(|assets|, i requires 0 <= i < |assets| =>
      Asset(assets[i].source, assets[i].path, ranges[i].offset, ranges[i].length, ranges[i].prefix, assets[i].mime))
  }

  /** Each asset's slice of the pack is its file. */
  ghost predicate SlicesAreFiles(assets: seq<Asset>, pack: seq<byte>, locate: Locate, files: AP.Files) {
    forall i :: 0 <= i < |assets| ==>
      assets[i].packOffset + assets[i].length <= |pack|
      && files(locate(assets[i].source, assets[i].path))
         == Some(pack[assets[i].packOffset..assets[i].packOffset + assets[i].length])
  }

  /** Each asset carries the media type of its path and the digest prefix of its file. */
  ghost predicate Tagged(
    assets: seq<Asset>, locate: Locate, files: AP.Files, digest: AP.Digest, mimeOf: Text -> nat)
  {
    forall i :: 0 <= i < |assets| ==>
      && assets[i].mime == mimeOf(assets[i].path)
      && files(locate(assets[i].source, assets[i].path)).Some?
      && assets[i].hashPrefix == AP.Prefix(digest(files(locate(assets[i].source, assets[i].path)).value))
  }

  lemma {:induction false} DecodeBound(bytes: seq<byte>)
    ensures Decode(bytes) < Pow256(|bytes|)
  {
    if bytes != [] { DecodeBound(bytes[1..]); }
  }

  lemma PrefixBound(digest: seq<byte>)
    ensures AP.Prefix(digest) < U64_LIMIT
  {
    Widths();
    if |digest| >= 8 { DecodeBound(digest[..8]); }
  }

  /** What the index relies on holds of every collected and packed list of assets. */
  lemma PackedAssetsGood(
    collected: seq<Asset>, groups: seq<Group>, sources: seq<Source>, locate: Locate,
    s: AP.Packing, files: AP.Files, digest: AP.Digest)
    requires IM.CollectedFrom(collected, groups, sources) && GoodGroups(groups)
    requires |collected| < U32_LIMIT && |sources| < U16_LIMIT
    requires forall i :: 0 <= i < |collected| ==> 1 <= collected[i].mime <= 6
    requires AP.Packed(s, PathsOf(groups, sources, locate), files, digest)
    ensures |s.ranges| == |collected|
    ensures var assets := Ranged(collected, s.ranges);
            && IM.CollectedFrom(assets, groups, sources) && GoodAssets(assets, |sources|)
            && WithinPack(assets, |s.pack|) && SlicesAreFiles(assets, s.pack, locate, files)
  {
    hide AP.Packed, GoodGroups, PathsOf;
    PackedCount(s, PathsOf(groups, sources, locate), files, digest);
    var assets := Ranged(collected, s.ranges);
    IM.CollectedDistinct(assets, groups, sources);
    hide Ranged;
    forall i | 0 <= i < |assets|
      ensures assets[i].packOffset + assets[i].length <= |s.pack| && assets[i].hashPrefix < U64_LIMIT
      ensures assets[i].source < |sources|
      ensures files(locate(assets[i].source, assets[i].path))
           == Some(s.pack[assets[i].packOffset..assets[i].packOffset + assets[i].length])
    {
      RangeServes(s, groups, sources, locate, files, digest, i);
    }
  }

  lemma PackedAssetsTagged(
    collected: seq<Asset>, groups: seq<Group>, sources: seq<Source>, locate: Locate,
    s: AP.Packing, files: AP.Files, digest: AP.Digest, mimeOf: Text -> nat)
    requires IM.CollectedFrom(collected, groups, sources)
    requires forall i :: 0 <= i < |collected| ==> collected[i].mime == mimeOf(collected[i].path)
    requires AP.Packed(s, PathsOf(groups, sources, locate), files, digest) && |s.ranges| == |collected|
    ensures Tagged(Ranged(collected, s.ranges), locate, files, digest, mimeOf)
  {
    var assets := Ranged(collected, s.ranges);
    hide AP.Packed, PathsOf, SourceIndex;
    forall i | 0 <= i < |assets|
      ensures files(locate(assets[i].source, assets[i].path)).Some?
      ensures assets[i].hashPrefix == AP.Prefix(digest(files(locate(assets[i].source, assets[i].path)).value))
    {
      RangeServes(s, groups, sources, locate, files, digest, i);
    }
  }

  lemma PackedCount(s: AP.Packing, paths: seq<Text>, files: AP.Files, digest: AP.Digest)
    requires AP.Packed(s, paths, files, digest)
    ensures |s.ranges| == |paths| && |s.pack| < U64_LIMIT
  {
  }

  lemma RangeServes(
    s: AP.Packing, groups: seq<Group>, sources: seq<Source>, locate: Locate, files: AP.Files, digest: AP.Digest, i: nat)
    requires AP.Packed(s, PathsOf(groups, sources, locate), files, digest) && i < |groups|
    ensures |s.ranges| == |groups|
    ensures s.ranges[i].offset + s.ranges[i].length <= |s.pack| && s.ranges[i].prefix < U64_LIMIT
    ensures s.ranges[i].prefix
         == AP.Prefix(digest(s.pack[s.ranges[i].offset..s.ranges[i].offset + s.ranges[i].length]))
    ensures files(locate(SourceIndex(sources, groups[i].key.source).GetOr(0), groups[i].key.file))
         == Some(s.pack[s.ranges[i].offset..s.ranges[i].offset + s.ranges[i].length])
  {
    var paths := PathsOf(groups, sources, locate);
    hide PathsOf;
    assert AP.Serves(s, s.ranges[i], paths[i], files, digest);
    PrefixBound(digest(s.pack[s.ranges[i].offset..s.ranges[i].offset + s.ranges[i].length]));
  }

  /* ---- Building. ---- */

  datatype Manifest = Manifest(terms: nat, records: nat, audio: nat, packBytes: nat, sources: seq<Text>)

  datatype Output = Output(lookup: seq<byte>, pack: seq<byte>, manifest: Manifest)

  /** `built` is the compiled form of the inputs. */
  ghost predicate Built(w: Inputs, x: Index, built: Output) {
    && x.rows == w.rows && x.sources == w.sources
    && CompiledFrom(x.t, x.keys, x.rows, x.sources, x.assets, w.hash, w.seeded)
    && GoodAssets(x.assets, |x.sources|) && WithinPack(x.assets, |built.pack|)
    && SlicesAreFiles(x.assets, built.pack, w.locate, w.files)
    && Tagged(x.assets, w.locate, w.files, w.digest, w.mimeOf)
    && TotalLength(x.t) < U64_LIMIT && Written(built.lookup, x.t, w.checksum)
    && built.manifest == Manifest(|x.t.terms|, |x.t.records|, |x.t.audio|, |built.pack|, Ids(x.sources))
  }

  /** Every row finds its audio among the collected assets. */
  lemma RowCompilable(
    row: Row, k: nat, listing: seq<Entry>, groups: seq<Group>, sources: seq<Source>, assets: seq<Asset>)
    requires k < |listing| && listing[k].key == FileOf(row) && InGroup(groups, listing[k])
    requires IM.CollectedFrom(assets, groups, sources)
    ensures Compilable(row, sources, assets)
  {
    hide SourceIndex;
    var i :| 0 <= i < |groups| && groups[i].key == listing[k].key;
    assert SourceIndex(sources, groups[i].key.source) == Some(assets[i].source);
  }

  lemma RowsCompilable(
    rows: seq<Row>, listing: seq<Entry>, groups: seq<Group>, sources: seq<Source>, assets: seq<Asset>)
    requires SameFiles(listing, rows) && GroupsCover(groups, listing) && IM.CollectedFrom(assets, groups, sources)
    ensures forall row :: row in rows ==> Compilable(row, sources, assets)
  {
    hide InGroup, IM.CollectedFrom, Compilable;
    forall row | row in rows ensures Compilable(row, sources, assets) {
      assert Listed(listing, FileOf(row));
      var k :| 0 <= k < |listing| && listing[k].key == FileOf(row);
      RowCompilable(row, k, listing, groups, sources, assets);
    }
  }

  /** The assets bring no text the rows do not have. */
  lemma AssetsAreFiles(
    rows: seq<Row>, listing: seq<Entry>, groups: seq<Group>, sources: seq<Source>, assets: seq<Asset>, asset: Asset)
    requires SameFiles(listing, rows) && GroupsCover(groups, listing) && IM.CollectedFrom(assets, groups, sources)
    requires GoodGroups(groups) && asset in assets
    ensures exists row :: row in rows && row.file == asset.path
  {
    hide *;
    var i :| 0 <= i < |assets| && assets[i] == asset;
    CollectedPath(assets, groups, sources, i);
    var k := GroupListed(groups, listing, i);
    ListedRow(listing, rows, k);
  }

  lemma GroupListed(groups: seq<Group>, listing: seq<Entry>, i: nat) returns (k: nat)
    requires GoodGroups(groups) && GroupsCover(groups, listing) && i < |groups|
    ensures k < |listing| && listing[k].key == groups[i].key
  {
    hide KeyBefore, InGroup;
    var id := groups[i].ids[0];
    assert id in groups[i].ids && Entry(id, groups[i].key) in listing;
    k :| 0 <= k < |listing| && listing[k] == Entry(id, groups[i].key);
  }

  lemma ListedRow(listing: seq<Entry>, rows: seq<Row>, k: nat)
    requires SameFiles(listing, rows) && k < |listing|
    ensures exists row :: row in rows && row.file == listing[k].key.file
  {
    assert Used(rows, listing[k].key);
    var row :| row in rows && FileOf(row) == listing[k].key;
  }

  lemma CollectedPath(assets: seq<Asset>, groups: seq<Group>, sources: seq<Source>, i: nat)
    requires IM.CollectedFrom(assets, groups, sources) && i < |assets|
    ensures i < |groups| && assets[i].path == groups[i].key.file
  {
    hide SourceIndex;
  }

  lemma TextsOfRows(w: Inputs, assets: seq<Asset>)
    requires forall asset :: asset in assets ==> exists row :: row in w.rows && row.file == asset.path
    ensures TextBytes(AllTexts(w.rows, w.sources, assets)) <= TextBytes(InputTexts(w))
  {
    hide RowTexts, TextBytes;
    TextBytesSubset(AllTexts(w.rows, w.sources, assets), InputTexts(w));
  }

  /** What the collected assets have to do with the rows. */
  lemma AssetsMatchRows(w: Inputs, assets: seq<Asset>)
    requires GoodInputs(w) && IM.CollectedFrom(assets, GroupsOf(w.listing), w.sources)
    ensures forall row :: row in w.rows ==> Compilable(row, w.sources, assets)
    ensures TextBytes(AllTexts(w.rows, w.sources, assets)) <= TextBytes(InputTexts(w))
  {
    hide *;
    ListingGood(w);
    RowsCompilable(w.rows, w.listing, GroupsOf(w.listing), w.sources, assets);
    forall asset | asset in assets ensures exists row :: row in w.rows && row.file == asset.path {
      AssetsAreFiles(w.rows, w.listing, GroupsOf(w.listing), w.sources, assets, asset);
    }
    TextsOfRows(w, assets);
  }

  lemma ListingGood(w: Inputs)
    requires GoodInputs(w)
    ensures SameFiles(w.listing, w.rows)
    ensures GoodGroups(GroupsOf(w.listing)) && GroupsCover(GroupsOf(w.listing), w.listing)
  {
    hide GroupsOf, OrderedRows, OrderedEntries, DistinctSources, SameFiles, GroupsCover, GoodGroups, GoodFunctions;
    GroupsGood(w.listing);
  }

  /** Sections of a compiled index never add up to 2^64 bytes. */
  lemma LengthFits(t: Tables)
    requires |t.fanout| == FANOUT_LEN && |t.terms| <= I32_MAX && |t.slots| == |t.terms|
    requires |t.displacements| <= |t.terms| + 3 && |t.records| < U32_LIMIT && |t.audio| < U32_LIMIT
    requires |t.strings| < U32_LIMIT
    ensures TotalLength(t) < U64_LIMIT
  {
  }

  lemma CompiledLengthFits(x: Index, hash: Hash, seeded: Seeded)
    requires CompiledFrom(x.t, x.keys, x.rows, x.sources, x.assets, hash, seeded)
    requires |x.rows| < U32_LIMIT && GoodAssets(x.assets, |x.sources|)
    ensures |x.t.slots| == |x.t.terms| && |x.t.fanout| == FANOUT_LEN
    ensures |x.t.strings| < U32_LIMIT ==> TotalLength(x.t) < U64_LIMIT
  {
    hide TotalLength, HashSorted, CompilerOrder, RecordMeans, Meant, HasTerm, Resolves, Cuts, AudioMeans;
    if |x.t.strings| < U32_LIMIT {
      LengthFits(x.t);
    }
  }

  /** Collecting and packing, as the first half of `compile_inner`. */
  method BuildAssets(w: Inputs) returns (r: Result<(seq<Asset>, seq<byte>)>)
    requires GoodInputs(w)
    ensures r.Ok? <==> Buildable(w)
    ensures r.Ok? ==>
              && IM.CollectedFrom(r.value.0, GroupsOf(w.listing), w.sources) && GoodAssets(r.value.0, |w.sources|)
              && WithinPack(r.value.0, |r.value.1|) && SlicesAreFiles(r.value.0, r.value.1, w.locate, w.files)
              && Tagged(r.value.0, w.locate, w.files, w.digest, w.mimeOf)
    ensures r.Ok? ==> (r.value.1 == [] <==> AP.FileBytes(Paths(w), w.files) == 0)
  {
    hide *;
    BuildableMeans(w);
    var collected := IM.CollectAssets(w.listing, w.sources, w.safe, w.mimeOf);
    if collected.Err? {
      return Err(collected.message);
    }
    var paths := AssetPaths(collected.value, w.locate);
    SamePaths(collected.value, w);
    AP.PackSucceeds(paths, w.files, w.digest, w.dedup);
    var packing := AP.WritePack(paths, w.files, w.digest, w.dedup, w.workers);
    if packing.Err? {
      return Err(packing.message);
    }
    AP.PackIsFaithful(paths, w.files, w.digest, w.dedup);
    AP.EmptyPack(packing.value, paths, w.files, w.digest);
    CollectedPacked(w, collected.value, packing.value);
    r := Ok((Ranged(collected.value, packing.value.ranges), packing.value.pack));
  }

  lemma BuildableMeans(w: Inputs)
    requires GoodInputs(w)
    ensures 0 < w.workers <= 64
    ensures Buildable(w) <==>
              && |GroupsOf(w.listing)| < U32_LIMIT
              && (forall group :: group in GroupsOf(w.listing) ==>
                    IM.Collectable(group.key, w.sources, w.safe, w.mimeOf))
              && AP.Packable(Paths(w), w.files)
  {
    hide GroupsOf, OrderedRows, OrderedEntries, DistinctSources, SameFiles, GoodFunctions, AP.Packable, IM.Collectable,
      Paths;
  }

  lemma CollectedPacked(w: Inputs, collected: seq<Asset>, packing: AP.Packing)
    requires GoodInputs(w) && IM.CollectedFrom(collected, GroupsOf(w.listing), w.sources) && |collected| < U32_LIMIT
    requires forall i :: 0 <= i < |collected| ==> collected[i].mime == w.mimeOf(collected[i].path) > 0
    requires AP.Packed(packing, Paths(w), w.files, w.digest)
    ensures |packing.ranges| == |collected|
    ensures var assets := Ranged(collected, packing.ranges);
            && IM.CollectedFrom(assets, GroupsOf(w.listing), w.sources) && GoodAssets(assets, |w.sources|)
            && WithinPack(assets, |packing.pack|) && SlicesAreFiles(assets, packing.pack, w.locate, w.files)
            && Tagged(assets, w.locate, w.files, w.digest, w.mimeOf)
  {
    hide GroupsOf, OrderedRows, OrderedEntries, DistinctSources, SameFiles, GoodGroups, GroupsCover, IM.CollectedFrom,
      AP.Packed, GoodFunctions, Paths, PathsOf;
    GroupsGood(w.listing);
    TagsKnown(w, collected);
    PathsAre(w);
    hide GoodAssets, WithinPack, SlicesAreFiles, Ranged;
    PackedAssetsGood(collected, GroupsOf(w.listing), w.sources, w.locate, packing, w.files, w.digest);
    PackedAssetsTagged(collected, GroupsOf(w.listing), w.sources, w.locate, packing, w.files, w.digest, w.mimeOf);
  }

  lemma TagsKnown(w: Inputs, collected: seq<Asset>)
    requires GoodFunctions(w)
    requires forall i :: 0 <= i < |collected| ==> collected[i].mime == w.mimeOf(collected[i].path) > 0
    ensures forall i :: 0 <= i < |collected| ==> 1 <= collected[i].mime <= 6
  {
  }

  lemma PathsAre(w: Inputs)
    ensures Paths(w) == PathsOf(GroupsOf(w.listing), w.sources, w.locate)
  {
  }

  function AssetPaths(assets: seq<Asset>, locate: Locate): (paths: seq<Text>)
    ensures |paths| == |assets|
    ensures forall i :: 0 <= i < |assets| ==> paths[i] == locate(assets[i].source, assets[i].path)
  {
    seq(|assets|, i requires 0 <= i < |assets| => locate(assets[i].source, assets[i].path))
  }

  lemma SamePaths(collected: seq<Asset>, w: Inputs)
    requires IM.CollectedFrom(collected, GroupsOf(w.listing), w.sources)
    ensures AssetPaths(collected, w.locate) == Paths(w)
  {
    hide GroupsOf, SourceIndex;
  }

  /**
   * `compile_inner`. It fails exactly on a file that cannot be collected or packed, on more than
   * `i32::MAX` terms, or when the search for a perfect hash gets stuck, provided that the texts of
   * the database, each counted once, stay below 4 GiB.
   */
  method Build(w: Inputs) returns (r: Result<Output>, ghost x: Index, ghost terms: seq<TermEntry>)
    requires GoodInputs(w)
    ensures r.Ok? ==> Buildable(w) && Built(w, x, r.value) && |x.t.strings| <= TextBytes(InputTexts(w))
    ensures r.Ok? ==> (r.value.pack == [] <==> AP.FileBytes(Paths(w), w.files) == 0)
    ensures Buildable(w) && TextBytes(InputTexts(w)) < U32_LIMIT
            ==> TermsOf(terms, x.keys, w.rows, w.hash)
                && (r.Err? <==> |terms| > I32_MAX || GetsStuck(terms, x.keys, w.seeded))
  {
    hide *;
    RowsReady(w);
    x, terms := Index(Tables([], [], [], [], [], [], []), [], w.rows, w.sources, []), [];
    var packed := BuildAssets(w);
    if packed.Err? {
      return Err(packed.message), x, terms;
    }
    var (assets, pack) := packed.value;
    AssetsMatchRows(w, assets);
    var tables;
    ghost var keys;
    tables, terms, keys := CompileIndex(w.rows, w.sources, assets, w.hash, w.seeded);
    x := x.(keys := keys);
    if tables.Err? {
      return Err(tables.message), x, terms;
    }
    x := Index(tables.value, keys, w.rows, w.sources, assets);
    CompiledLengthFits(x, w.hash, w.seeded);
    var lookup := WriteLookup(tables.value, w.checksum);
    if lookup.Err? {
      return Err(lookup.message), x, terms;
    }
    var manifest := Manifest(|tables.value.terms|, |tables.value.records|, |tables.value.audio|, |pack|,
      Ids(w.sources));
    r := Ok(Output(lookup.value, pack, manifest));
    BuiltSoFar(w, x, r.value);
  }

  lemma RowsReady(w: Inputs)
    requires GoodInputs(w)
    ensures Contiguous(w.rows) && |w.rows| < U32_LIMIT
    ensures forall payload :: |w.checksum(payload)| == CHECKSUM_END - CHECKSUM_OFFSET
  {
    OrderedContiguous(w.rows);
    hide OrderedRows, Contiguous, OrderedEntries, DistinctSources, SameFiles;
  }

  lemma BuiltSoFar(w: Inputs, x: Index, built: Output)
    requires x.rows == w.rows && x.sources == w.sources
    requires CompiledFrom(x.t, x.keys, x.rows, x.sources, x.assets, w.hash, w.seeded)
    requires GoodAssets(x.assets, |x.sources|) && WithinPack(x.assets, |built.pack|)
    requires SlicesAreFiles(x.assets, built.pack, w.locate, w.files)
    requires Tagged(x.assets, w.locate, w.files, w.digest, w.mimeOf)
    requires TotalLength(x.t) < U64_LIMIT && Written(built.lookup, x.t, w.checksum)
    requires built.manifest == Manifest(|x.t.terms|, |x.t.records|, |x.t.audio|, |built.pack|, Ids(x.sources))
    ensures Built(w, x, built)
  {
    hide CompiledFrom, GoodAssets, WithinPack, SlicesAreFiles, TotalLength, Written, Ids;
  }

  /* ---- Opening and asking. ---- */

  /** `Bundle::open` and `QueryEngine::new`; an empty file cannot be mapped. */
  method Open(
    built: Output, verify: bool, mode: nat, w: Inputs, ghost x: Index)
    returns (r: Result<(Bundle, Backend)>)
    ensures GoodInputs(w) && Built(w, x, built) && |x.t.strings| < NONE_REF ==>
              && (r.Ok? <==> built.pack != [])
              && (r.Ok? ==> Opened(r.value.0, x, w.hash, w.seeded) && |x.keys| == |x.t.terms|
                            && Serves(r.value.1, x.t, x.keys))
  {
    hide *;
    ghost var good := GoodInputs(w) && Built(w, x, built) && |x.t.strings| < NONE_REF;
    if good {
      FileServes(built, verify, w, x);
    }
    if built.lookup == [] || built.pack == [] {
      return Err("file is empty");
    }
    var parsed := ParseHeader(built.lookup, verify, w.checksum);
    if parsed.Err? {
      return Err(parsed.message);
    }
    var header, manifest := parsed.value, built.manifest;
    if header.termCount != manifest.terms {
      return Err("manifest/index term count differs");
    }
    if header.recordCount != manifest.records {
      return Err("manifest/index record count differs");
    }
    if header.audioCount != manifest.audio {
      return Err("manifest/index audio count differs");
    }
    if |built.pack| != manifest.packBytes {
      return Err("pack length differs from manifest");
    }
    var b := Bundle(built.lookup, header, |built.pack|, manifest.sources);
    if good {
      CompiledOpened(b, x, w.hash, w.seeded);
    }
    var checked := ValidateStructure(b, w.hash, w.seeded);
    if checked.Err? {
      return Err(checked.message);
    }
    var backend := NewBackend(mode, b, x.t, x.keys, w.hash, w.seeded);
    if backend.Err? {
      return Err(backend.message);
    }
    r := Ok((b, backend.value));
  }

  /** The file parses, its counts are the manifest's, and it passes the structure check. */
  lemma FileServes(built: Output, verify: bool, w: Inputs, x: Index)
    requires GoodInputs(w) && Built(w, x, built) && |x.t.strings| < NONE_REF
    ensures built.lookup != [] && ParseHeader(built.lookup, verify, w.checksum).Ok?
    ensures var h, m := ParseHeader(built.lookup, verify, w.checksum).value, built.manifest;
            && h.termCount == m.terms && h.recordCount == m.records && h.audioCount == m.audio
            && m.packBytes == |built.pack|
            && var b := Bundle(built.lookup, h, |built.pack|, m.sources);
               Opened(b, x, w.hash, w.seeded) && ValidStructure(b, w.hash, w.seeded)
  {
    hide CompiledFrom, GoodAssets, WithinPack, SlicesAreFiles, OrderedRows, OrderedEntries, DistinctSources, SameFiles,
      Written, TotalLength, ParseHeader, ValidStructure, Opened, Layout.Fits;
    CompiledFileServes(built.lookup, x, w.hash, w.seeded, w.checksum, verify, |built.pack|);
    CompiledFits(x.t, x.keys, x.rows, x.sources, x.assets, w.hash, w.seeded);
    HeaderCounts(built.lookup, x.t, w.checksum, verify);
  }

  lemma CompiledOpened(b: Bundle, x: Index, hash: Hash, seeded: Seeded)
    requires Opened(b, x, hash, seeded)
    ensures Compiled(b, x.t, x.keys, hash, seeded) && |x.keys| == |x.t.terms|
  {
    hide Decodes, CompiledFrom;
  }

  lemma HeaderCounts(lookup: seq<byte>, t: Tables, checksum: seq<byte> -> seq<byte>, verify: bool)
    requires Layout.Fits(t) && TotalLength(t) < U64_LIMIT && Written(lookup, t, checksum)
    ensures lookup != [] && ParseHeader(lookup, verify, checksum) == Ok(Place(t))
    ensures Place(t).termCount == |t.terms| && Place(t).recordCount == |t.records| && Place(t).audioCount == |t.audio|
  {
    ParseHeaderAccepts(lookup, t, verify, checksum);
  }

  /** A candidate says what its row says, and its slice of the pack is the row's file. */
  ghost predicate Speaks(c: Candidate, row: Row, w: Inputs, pack: seq<byte>) {
    && c.source == row.source && c.reading == row.reading && c.speaker == row.speaker
    && SourceIndex(w.sources, row.source) == Some(c.audio.source) && c.audio.mime == w.mimeOf(row.file)
    && Names(w.sources[c.audio.source].display, row.display, c.name)
    && c.audio.packOffset + c.audio.length <= |pack|
    && w.files(w.locate(c.audio.source, row.file))
       == Some(pack[c.audio.packOffset..c.audio.packOffset + c.audio.length])
  }

  /** The add-on's own answer, from the database rows. */
  function Expected(w: Inputs, query: QueryInput): seq<Row> {
    Selected(MatchingRows(w.rows, query.term, query.reading), Request(query, Ids(w.sources)))
  }

  lemma AnswersSpeak(c: Candidate, row: Row, w: Inputs, x: Index, built: Output)
    requires Built(w, x, built) && AnswersRow(c, row, x)
    ensures Speaks(c, row, w, built.pack)
  {
    hide DisplayName, SourceIndex, EntriesMean, Perfect, HashSorted, Cuts, Written, TotalLength, GoodAssets, Meant;
    assert AudioMeans(x.t.strings, x.t.audio[c.audioId], x.assets[c.audioId]);
  }

  lemma AllSpeak(answer: seq<Candidate>, rows: seq<Row>, w: Inputs, x: Index, built: Output)
    requires Built(w, x, built) && AnswersRows(answer, rows, x)
    ensures |answer| == |rows| && forall i :: 0 <= i < |answer| ==> Speaks(answer[i], rows[i], w, built.pack)
  {
    hide Built, AnswersRow, Speaks;
    forall i | 0 <= i < |answer| ensures Speaks(answer[i], rows[i], w, built.pack) {
      AnswersSpeak(answer[i], rows[i], w, x, built);
    }
  }

  /**
   * Everything together: over any database whose texts stay below the null offset, building fails
   * exactly as `Build` says, opening fails exactly when no audio byte was packed, and every query,
   * by any of the three lookups, answers the add-on's selection of the rows, each candidate with
   * the bytes of its row's file.
   */
  method BuildAndAsk(w: Inputs, verify: bool, mode: nat, query: QueryInput)
    returns (built: Result<Output>, answer: Result<seq<Candidate>>, ghost terms: seq<TermEntry>, ghost keys: seq<Text>)
    requires GoodInputs(w) && TextBytes(InputTexts(w)) < NONE_REF
    ensures built.Ok? ==> Buildable(w)
    ensures Buildable(w) ==>
              TermsOf(terms, keys, w.rows, w.hash)
              && (built.Err? <==> |terms| > I32_MAX || GetsStuck(terms, keys, w.seeded))
    ensures answer.Ok? <==> built.Ok? && AP.FileBytes(Paths(w), w.files) > 0
    ensures answer.Ok? ==>
              && |answer.value| == |Expected(w, query)|
              && forall i :: 0 <= i < |answer.value| ==>
                   Speaks(answer.value[i], Expected(w, query)[i], w, built.value.pack)
  {
    hide *;
    NullOffsetFits();
    ghost var x;
    built, x, terms := Build(w);
    keys := x.keys;
    if built.Err? {
      return built, Err(built.message), terms, keys;
    }
    var server := Open(built.value, verify, mode, w, x);
    if server.Err? {
      return built, Err(server.message), terms, keys;
    }
    var (b, backend) := server.value;
    HashFits(w, query.term);
    ghost var entry;
    answer, entry := Candidates(backend, b, query, w.hash, w.seeded, x);
    SelectedAlike(w, x, built.value, query);
    AllSpeak(answer.value, Expected(w, query), w, x, built.value);
  }

  lemma NullOffsetFits()
    ensures NONE_REF < U32_LIMIT
  {
  }

  lemma HashFits(w: Inputs, text: Text)
    requires GoodInputs(w)
    ensures w.hash(text) < U64_LIMIT
  {
  }

  lemma SelectedAlike(w: Inputs, x: Index, built: Output, query: QueryInput)
    requires Built(w, x, built)
    ensures SelectedFor(x, query) == Expected(w, query)
  {
  }
}
