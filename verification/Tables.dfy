/** `compile_inner`: all tables of `lookup.bin`, from the packed assets and the database rows. */
module CompileTables {
  import opened Wrappers
  import opened Text
  import opened LittleEndian
  import opened Sorting
  import opened Strings
  import opened Layout
  import opened Mph
  import opened Lookup
  import opened Structure
  import opened Compile

  /** Assets are listed once per (source, file), as `GROUP BY source, file` does. */
  ghost predicate DistinctAssets(assets: seq<Asset>) {
    forall i, j :: 0 <= i < j < |assets| ==>
      assets[i].source != assets[j].source || assets[i].path != assets[j].path
  }

  /** The asset id map of `compile_inner`; the "duplicate logical asset" check cannot fire. */
  method AssetIds(assets: seq<Asset>) returns (r: Result<map<Text, nat>>)
    ensures DistinctAssets(assets) ==> r.Ok?
    ensures r.Ok? ==> DistinctAssets(assets) && IdsMean(r.value, assets)
    ensures r.Ok? ==> forall i :: 0 <= i < |assets| ==>
              AssetKey(assets[i].source, assets[i].path) in r.value
  {
    hide AssetKey;
    var ids: map<Text, nat> := map[];
    var index := 0;
    while index < |assets|
      invariant 0 <= index <= |assets|
      invariant forall key :: key in ids ==>
                  ids[key] < index && key == AssetKey(assets[ids[key]].source, assets[ids[key]].path)
      invariant forall i :: 0 <= i < index ==> AssetKey(assets[i].source, assets[i].path) in ids
      invariant DistinctAssets(assets[..index])
    {
      var asset := assets[index];
      var key := AssetKey(asset.source, asset.path);
      if key in ids {
        AssetKeyInjective(asset.source, asset.path, assets[ids[key]].source, assets[ids[key]].path);
        return Err("duplicate logical asset");
      }
      forall i | 0 <= i < index
        ensures assets[i].source != asset.source || assets[i].path != asset.path
      {
        assert AssetKey(assets[i].source, assets[i].path) in ids;
      }
      ids := ids[key := index];
      index := index + 1;
    }
    assert assets[..index] == assets;
    r := Ok(ids);
  }

  /** `serialize_audio_table`. */
  ghost predicate AudioMeans(strings: seq<byte>, audio: AudioEntry, asset: Asset) {
    && audio.packOffset == asset.packOffset && audio.length == asset.length
    && audio.hashPrefix == asset.hashPrefix && audio.source == asset.source && audio.mime == asset.mime
    && Holds(strings, audio.path, asset.path) && FitsRef(audio.path)
  }

  method SerializeAudioTable(assets: seq<Asset>, table: StringTable, ghost texts: set<Text>)
    returns (r: Result<seq<AudioEntry>>)
    requires table.Valid()
    requires table.refs.Keys <= texts && forall asset :: asset in assets ==> asset.path in texts
    modifies table
    ensures table.Valid() && old(table.bytes) <= table.bytes && table.refs.Keys <= texts
    ensures TextBytes(texts) < U32_LIMIT ==> r.Ok?
    ensures r.Ok? ==> |r.value| == |assets|
    ensures r.Ok? ==> forall i :: 0 <= i < |assets| ==> AudioMeans(table.bytes, r.value[i], assets[i])
  {
    hide Holds, FitsRef, StringTable.Valid, TextBytes;
    var output := [];
    var index := 0;
    while index < |assets|
      invariant 0 <= index <= |assets| && |output| == index
      invariant table.Valid() && old(table.bytes) <= table.bytes && table.refs.Keys <= texts
      invariant forall i :: 0 <= i < index ==> AudioMeans(table.bytes, output[i], assets[i])
    {
      ghost var before := table.bytes;
      var asset := assets[index];
      assert asset in assets;
      table.HasRoom(texts, asset.path);
      var path :- table.Intern(asset.path);
      forall i | 0 <= i < index ensures AudioMeans(table.bytes, output[i], assets[i]) {
        HoldsMonotone(before, table.bytes, output[i].path, assets[i].path);
      }
      output := output + [AudioEntry(asset.packOffset, asset.length, path, asset.hashPrefix,
                                     asset.source, asset.mime)];
      index := index + 1;
    }
    r := Ok(output);
  }

  /* ---- Sorting the terms. ---- */

  function TermKey(): TermEntry -> RankKey {
    (e: TermEntry) => RankKey(e.hash, 0, None, e.text.offset)
  }

  lemma SortedByHash(terms: seq<TermEntry>)
    ensures HashSorted(SortByKey(terms, TermKey()))
  {
    SortSorted(terms, TermKey());
  }

  function KeyText(strings: seq<byte>, e: TermEntry): Text {
    StringBytes(strings, e.text).GetOr([])
  }

  function KeyTexts(strings: seq<byte>, terms: seq<TermEntry>): (keys: seq<Text>)
    ensures |keys| == |terms|
    ensures forall i :: 0 <= i < |terms| ==> keys[i] == KeyText(strings, terms[i])
  {
    seq(|terms|, i requires 0 <= i < |terms| => KeyText(strings, terms[i]))
  }

  /** Reordering entries keeps their texts apart. */
  lemma ReorderedTextsDistinct(
    strings: seq<byte>, terms: seq<TermEntry>, keys: seq<Text>, sorted: seq<TermEntry>, i: nat, j: nat)
    requires |keys| == |terms| && multiset(sorted) == multiset(terms) && i < j < |sorted|
    requires forall k :: 0 <= k < |terms| ==> KeyText(strings, terms[k]) == keys[k]
    requires forall k, l :: 0 <= k < l < |keys| ==> keys[k] != keys[l]
    ensures KeyText(strings, sorted[i]) != KeyText(strings, sorted[j])
  {
    hide KeyText;
    if sorted[i] == sorted[j] {
      CountedTwice(sorted, i, j);
      TwiceFound(terms, sorted[i]);
    } else {
      assert sorted[i] in multiset(terms) && sorted[j] in multiset(terms);
      var k :| 0 <= k < |terms| && terms[k] == sorted[i];
      var l :| 0 <= l < |terms| && terms[l] == sorted[j];
      assert k != l;
    }
  }

  /* ---- The whole index. ---- */

  /** Assets as `collect_assets` and `write_pack` leave them. */
  ghost predicate GoodAssets(assets: seq<Asset>, sourceCount: nat) {
    && |assets| < U32_LIMIT && sourceCount < U16_LIMIT && DistinctAssets(assets)
    && (forall i :: 0 <= i < |assets| ==>
          assets[i].source < sourceCount && assets[i].packOffset < U64_LIMIT
          && assets[i].length < U64_LIMIT && assets[i].hashPrefix < U64_LIMIT && 1 <= assets[i].mime <= 6)
  }

  /** Every entry, found by its own text, lists the rows of that text in compiler order. */
  ghost predicate EntriesMean(
    terms: seq<TermEntry>, keys: seq<Text>, records: seq<RecordEntry>, rows: seq<Row>,
    sources: seq<Source>, assets: seq<Asset>, hash: Text -> nat, strings: seq<byte>)
  {
    && Keyed(terms, keys, strings)
    && (forall term :: term in keys <==> HasTerm(rows, term))
    && (forall i :: 0 <= i < |keys| ==>
          FlushedTerm(terms[i], records, keys[i], CompilerOrder(rows, keys[i], sources),
                      sources, assets, hash, strings))
  }

  /** The tables are the compiled form of the rows. */
  ghost predicate CompiledFrom(
    t: Tables, keys: seq<Text>, rows: seq<Row>, sources: seq<Source>, assets: seq<Asset>,
    hash: Text -> nat, seeded: Seeded)
  {
    && EntriesMean(t.terms, keys, t.records, rows, sources, assets, hash, t.strings)
    && HashSorted(t.terms) && |t.terms| <= I32_MAX
    && |t.fanout| == FANOUT_LEN
    && (forall b :: 0 <= b < FANOUT_LEN ==> Cuts(t.terms, b, t.fanout[b]))
    && Perfect(t.terms, keys, seeded, t.displacements, t.slots)
    && |t.records| == |rows|
    && (forall i :: 0 <= i < |t.records| ==> Meant(t.strings, t.records[i], sources, assets))
    && |t.audio| == |assets|
    && (forall i :: 0 <= i < |assets| ==> AudioMeans(t.strings, t.audio[i], assets[i]))
  }

  /** Sorting by hash permutes the entries together with their texts. */
  lemma SortedEntriesMean(
    terms: seq<TermEntry>, keys: seq<Text>, sorted: seq<TermEntry>, records: seq<RecordEntry>,
    rows: seq<Row>, sources: seq<Source>, assets: seq<Asset>, hash: Text -> nat, strings: seq<byte>)
    requires Finished(terms, keys, records, rows, sources, assets, hash, strings)
    requires forall term :: term in keys <==> HasTerm(rows, term)
    requires multiset(sorted) == multiset(terms)
    ensures EntriesMean(sorted, KeyTexts(strings, sorted), records, rows, sources, assets, hash, strings)
  {
    hide CompilerOrder, RecordMeans, HasTerm, FitsRef, Meant;
    var texts := KeyTexts(strings, sorted);
    forall k | 0 <= k < |terms| ensures KeyText(strings, terms[k]) == keys[k] {
      assert FlushedTerm(terms[k], records, keys[k], CompilerOrder(rows, keys[k], sources),
                         sources, assets, hash, strings);
    }
    forall i | 0 <= i < |sorted|
      ensures texts[i] in keys && Holds(strings, sorted[i].text, texts[i])
      ensures FlushedTerm(sorted[i], records, texts[i], CompilerOrder(rows, texts[i], sources),
                          sources, assets, hash, strings)
    {
      assert sorted[i] in multiset(terms);
      var k :| 0 <= k < |terms| && terms[k] == sorted[i];
      assert texts[i] == keys[k];
    }
    forall i, j | 0 <= i < j < |sorted| ensures texts[i] != texts[j] {
      ReorderedTextsDistinct(strings, terms, keys, sorted, i, j);
    }
    forall k | 0 <= k < |keys| ensures keys[k] in texts {
      assert terms[k] in multiset(sorted);
      var i :| 0 <= i < |sorted| && sorted[i] == terms[k];
      assert texts[i] == keys[k];
    }
    forall term ensures term in texts <==> HasTerm(rows, term) {
    }
  }

  lemma EntriesMeanMonotone(
    terms: seq<TermEntry>, keys: seq<Text>, records: seq<RecordEntry>, rows: seq<Row>,
    sources: seq<Source>, assets: seq<Asset>, hash: Text -> nat, strings: seq<byte>, longer: seq<byte>)
    requires EntriesMean(terms, keys, records, rows, sources, assets, hash, strings)
    requires strings <= longer
    ensures EntriesMean(terms, keys, records, rows, sources, assets, hash, longer)
  {
    hide FlushedTerm, Holds, CompilerOrder, HasTerm;
    forall i | 0 <= i < |keys|
      ensures Holds(longer, terms[i].text, keys[i])
      ensures FlushedTerm(terms[i], records, keys[i], CompilerOrder(rows, keys[i], sources),
                          sources, assets, hash, longer)
    {
      HoldsMonotone(strings, longer, terms[i].text, keys[i]);
      FlushedTermMonotone(terms[i], records, records, keys[i], CompilerOrder(rows, keys[i], sources),
                          sources, assets, hash, strings, longer);
    }
  }

  /** The row's source is configured and its file is one of the assets. */
  ghost predicate Compilable(row: Row, sources: seq<Source>, assets: seq<Asset>) {
    var index := SourceIndex(sources, row.source);
    index.Some? && exists i :: 0 <= i < |assets| && assets[i].source == index.value && assets[i].path == row.file
  }

  lemma ResolvedIsCompilable(row: Row, sources: seq<Source>, assets: seq<Asset>, assetIds: map<Text, nat>)
    requires IdsMean(assetIds, assets)
    requires forall i :: 0 <= i < |assets| ==> AssetKey(assets[i].source, assets[i].path) in assetIds
    ensures Resolved(row, sources, assetIds) <==> Compilable(row, sources, assets)
  {
    hide AssetKey, SourceIndex;
    var index := SourceIndex(sources, row.source);
    if Resolved(row, sources, assetIds) {
      var i := assetIds[AssetKey(index.value, row.file)];
      AssetKeyInjective(index.value, row.file, assets[i].source, assets[i].path);
    }
  }

  /** Every text the index of these rows and assets holds. */
  function AllTexts(rows: seq<Row>, sources: seq<Source>, assets: seq<Asset>): set<Text> {
    (set row, text | row in rows && text in RowTexts(row, sources) :: text)
    + (set asset | asset in assets :: asset.path)
  }

  /** The terms the perfect hash is built over: one per distinct expression, in hash order. */
  ghost predicate TermsOf(terms: seq<TermEntry>, keys: seq<Text>, rows: seq<Row>, hash: Text -> nat) {
    && HashSorted(terms) && |keys| == |terms|
    && (forall i, j :: 0 <= i < j < |keys| ==> keys[i] != keys[j])
    && (forall term :: term in keys <==> HasTerm(rows, term))
    && (forall i :: 0 <= i < |terms| ==> terms[i].hash == hash(keys[i]))
  }

  lemma EntriesAreTerms(
    terms: seq<TermEntry>, keys: seq<Text>, records: seq<RecordEntry>, rows: seq<Row>,
    sources: seq<Source>, assets: seq<Asset>, hash: Text -> nat, strings: seq<byte>)
    requires EntriesMean(terms, keys, records, rows, sources, assets, hash, strings) && HashSorted(terms)
    ensures Keyed(terms, keys, strings) && TermsOf(terms, keys, rows, hash)
  {
    hide Holds, HashSorted, HasTerm, CompilerOrder;
  }

  lemma TextsCovered(rows: seq<Row>, sources: seq<Source>, assets: seq<Asset>)
    ensures Covers(AllTexts(rows, sources, assets), rows, sources)
    ensures forall asset :: asset in assets ==> asset.path in AllTexts(rows, sources, assets)
  {
    hide RowTexts;
  }

  /**
   * The lookup half of `compile_inner`. When its texts, each counted once, stay below 4 GiB, it
   * fails exactly on a row of unknown source or audio, on more than `i32::MAX` terms, or when the
   * search for a perfect hash gets stuck.
   */
  method CompileIndex(
    rows: seq<Row>, sources: seq<Source>, assets: seq<Asset>, hash: Text -> nat, seeded: Seeded)
    returns (r: Result<Tables>, ghost terms: seq<TermEntry>, ghost keys: seq<Text>)
    requires Contiguous(rows) && |rows| < U32_LIMIT && GoodAssets(assets, |sources|)
    ensures r.Ok? ==> CompiledFrom(r.value, keys, rows, sources, assets, hash, seeded)
    ensures r.Ok? ==> |r.value.strings| <= TextBytes(AllTexts(rows, sources, assets))
    ensures r.Ok? ==> forall row :: row in rows ==> Compilable(row, sources, assets)
    ensures TextBytes(AllTexts(rows, sources, assets)) < U32_LIMIT
            && (forall row :: row in rows ==> Compilable(row, sources, assets))
            ==> TermsOf(terms, keys, rows, hash)
                && (r.Err? <==> |terms| > I32_MAX || GetsStuck(terms, keys, seeded))
  {
    hide Contiguous, Finished, EntriesMean, Perfect, IdsMean, AudioMeans, HasTerm, Resolved,
      AssetKey, Meant, StringTable.Valid, KeyTexts, TextBytes, AllTexts, Covers, Compilable, GetsStuck, TermsOf;
    terms, keys := [], [];
    ghost var texts := AllTexts(rows, sources, assets);
    TextsCovered(rows, sources, assets);
    var assetIds := AssetIds(assets);
    if assetIds.Err? {
      return Err("duplicate logical asset"), terms, keys;
    }
    forall row ensures Resolved(row, sources, assetIds.value) <==> Compilable(row, sources, assets) {
      ResolvedIsCompilable(row, sources, assets, assetIds.value);
    }
    var table := new StringTable();
    var collected;
    collected, keys := CollectRecords(rows, sources, assets, assetIds.value, hash, table, texts);
    if collected.Err? {
      return Err(collected.message), terms, keys;
    }
    var (unsorted, records) := collected.value;
    ghost var strings := table.bytes;
    var sorted := SortByKey(unsorted, TermKey());
    SortMultiset(unsorted, TermKey());
    SortedByHash(unsorted);
    SortedEntriesMean(unsorted, keys, sorted, records, rows, sources, assets, hash, strings);
    RecordsMeant(unsorted, keys, records, rows, sources, assets, hash, strings);
    terms, keys := sorted, KeyTexts(strings, sorted);
    EntriesAreTerms(terms, keys, records, rows, sources, assets, hash, strings);
    var fanout := MakeFanout(sorted);
    var mph :- BuildMph(sorted, table.bytes, keys, seeded);
    var audio :- SerializeAudioTable(assets, table, texts);
    table.SizeBound(texts);
    EntriesMeanMonotone(sorted, keys, records, rows, sources, assets, hash, strings, table.bytes);
    forall i | 0 <= i < |records| ensures Meant(table.bytes, records[i], sources, assets) {
      MeantMonotone(strings, table.bytes, records[i], sources, assets);
    }
    r := Ok(Tables(fanout, sorted, mph.displacements, mph.slots, records, audio, table.bytes));
  }

  lemma RecordsMeant(
    terms: seq<TermEntry>, keys: seq<Text>, records: seq<RecordEntry>, rows: seq<Row>,
    sources: seq<Source>, assets: seq<Asset>, hash: Text -> nat, strings: seq<byte>)
    requires Finished(terms, keys, records, rows, sources, assets, hash, strings)
    ensures forall i :: 0 <= i < |records| ==> Meant(strings, records[i], sources, assets)
  {
  }

  /* ---- What a small enough string table guarantees. ---- */

  ghost predicate WithinPack(assets: seq<Asset>, packLength: nat) {
    packLength < U64_LIMIT
    && forall i :: 0 <= i < |assets| ==> assets[i].packOffset + assets[i].length <= packLength
  }

  lemma MeantFitsRecord(
    strings: seq<byte>, record: RecordEntry, sources: seq<Source>, assets: seq<Asset>)
    requires Meant(strings, record, sources, assets) && GoodAssets(assets, |sources|)
    ensures FitsRecord(record)
  {
    var row :| RecordMeans(strings, record, row, sources, assets);
  }

  lemma OptionBecomesReadable(strings: seq<byte>, reference: StringRef, value: Option<Text>)
    requires |strings| < NONE_REF && OptionHolds(strings, reference, value)
    ensures OptionReadable(strings, reference, value)
  {
    if value.Some? { SmallTableReadable(strings, reference, value.value); }
  }

  lemma MeantIsSound(
    t: Tables, record: RecordEntry, sources: seq<Source>, assets: seq<Asset>)
    requires |t.strings| < NONE_REF && Meant(t.strings, record, sources, assets)
    requires |t.audio| == |assets|
    requires forall i :: 0 <= i < |assets| ==> AudioMeans(t.strings, t.audio[i], assets[i])
    ensures SoundRecord(t, record, |sources|)
  {
    hide Holds, DisplayName, FitsRef;
    var row :| RecordMeans(t.strings, record, row, sources, assets);
    OptionBecomesReadable(t.strings, record.reading, row.reading);
    OptionBecomesReadable(t.strings, record.speaker, row.speaker);
    SmallTableReadable(t.strings, record.name, DisplayName(sources[record.source].display, row.display));
    assert AudioMeans(t.strings, t.audio[record.audioId], assets[record.audioId]);
  }

  lemma FanoutFits(t: Tables)
    requires |t.fanout| == FANOUT_LEN && |t.terms| <= I32_MAX
    requires forall b :: 0 <= b < FANOUT_LEN ==> Cuts(t.terms, b, t.fanout[b])
    ensures forall b :: 0 <= b < FANOUT_LEN ==> t.fanout[b] < U32_LIMIT
  {
    forall b | 0 <= b < FANOUT_LEN ensures t.fanout[b] < U32_LIMIT {
      assert Cuts(t.terms, b, t.fanout[b]);
    }
  }

  /** Every field of a compiled index fits the width the file gives it. */
  lemma CompiledFits(
    t: Tables, keys: seq<Text>, rows: seq<Row>, sources: seq<Source>, assets: seq<Asset>,
    hash: Text -> nat, seeded: Seeded)
    requires CompiledFrom(t, keys, rows, sources, assets, hash, seeded)
    requires GoodAssets(assets, |sources|)
    requires forall text :: hash(text) < U64_LIMIT
    ensures Layout.Fits(t)
  {
    hide HashSorted, CompilerOrder, RecordMeans, Holds, Meant, HasTerm, Resolves, Cuts;
    forall i | 0 <= i < |t.terms| ensures FitsTerm(t.terms[i]) {
      assert FlushedTerm(t.terms[i], t.records, keys[i], CompilerOrder(rows, keys[i], sources),
                         sources, assets, hash, t.strings);
    }
    assert |keys| == |t.terms| == |t.slots|;
    forall s | 0 <= s < |t.slots| ensures FitsTerm(t.slots[s]) {
      assert Occupied(s, t.terms, keys, seeded, t.displacements, t.slots);
    }
    forall i | 0 <= i < |t.records| ensures FitsRecord(t.records[i]) {
      MeantFitsRecord(t.strings, t.records[i], sources, assets);
    }
    forall i | 0 <= i < |t.audio| ensures FitsAudio(t.audio[i]) {
      assert AudioMeans(t.strings, t.audio[i], assets[i]);
    }
    FanoutFits(t);
  }

  /** A string table below the null offset keeps every promise the lookups and the checks rely on. */
  lemma CompiledSound(
    t: Tables, keys: seq<Text>, rows: seq<Row>, sources: seq<Source>, assets: seq<Asset>,
    hash: Text -> nat, seeded: Seeded, packLength: nat)
    requires CompiledFrom(t, keys, rows, sources, assets, hash, seeded)
    requires GoodAssets(assets, |sources|) && WithinPack(assets, packLength)
    requires forall text :: hash(text) < U64_LIMIT
    requires |t.strings| < NONE_REF
    ensures CompiledTerms(t, keys, hash, seeded) && SoundTables(t, packLength, |sources|)
  {
    hide HashSorted, Perfect, Cuts, CompilerOrder, RecordMeans, Meant, HasTerm, Holds, SoundRecord;
    forall i | 0 <= i < |keys|
      ensures Readable(t.strings, t.terms[i].text, keys[i]) && t.terms[i].hash == hash(keys[i])
      ensures t.terms[i].first + t.terms[i].count <= |t.records|
    {
      assert FlushedTerm(t.terms[i], t.records, keys[i], CompilerOrder(rows, keys[i], sources),
                         sources, assets, hash, t.strings);
      SmallTableReadable(t.strings, t.terms[i].text, keys[i]);
    }
    forall i | 0 <= i < |t.records| ensures SoundRecord(t, t.records[i], |sources|) {
      MeantIsSound(t, t.records[i], sources, assets);
    }
    forall i | 0 <= i < |t.audio| ensures SoundAudio(t, t.audio[i], packLength, |sources|) {
      assert AudioMeans(t.strings, t.audio[i], assets[i]);
      SmallTableReadable(t.strings, t.audio[i].path, assets[i].path);
    }
  }
}
