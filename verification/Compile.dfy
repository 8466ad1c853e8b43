/** From the rows of `entries.db` to the tables of `lookup.bin`. */
module Compile {
  import opened Wrappers
  import opened Text
  import opened LittleEndian
  import opened Sorting
  import opened Strings
  import opened Layout

  /** One row of `entries`; `id` is the integer primary key. */
  datatype Row = Row(
    id: int, expression: Text, reading: Option<Text>, source: Text,
    speaker: Option<Text>, display: Option<Text>, file: Text)

  /** A configured source; `display` is the name template. */
  datatype Source = Source(id: Text, display: Text)

  /** A logical asset after packing. */
  datatype Asset = Asset(
    source: nat, path: Text, packOffset: nat, length: nat, hashPrefix: nat, mime: nat)

  /* ---- Asset keys. ---- */

  function Decimal(n: nat): (d: Text)
    ensures |d| > 0
  {
    if n < 10 then [48 + n] else Decimal(n / 10) + [48 + n % 10]
  }

  lemma {:induction false} DecimalDigits(n: nat)
    ensures forall k :: 0 <= k < |Decimal(n)| ==> 48 <= Decimal(n)[k] < 58
  {
    if n >= 10 { DecimalDigits(n / 10); }
  }

  lemma {:induction false} DecimalInjective(m: nat, n: nat)
    requires Decimal(m) == Decimal(n)
    ensures m == n
  {
    var d, e := Decimal(m), Decimal(n);
    assert d[|d| - 1] == e[|e| - 1];
    assert m % 10 == n % 10;
    if m >= 10 && n >= 10 {
      assert Decimal(m / 10) == d[..|d| - 1] == e[..|e| - 1] == Decimal(n / 10);
      DecimalInjective(m / 10, n / 10);
    } else {
      assert |Decimal(m / 10)| > 0 && |Decimal(n / 10)| > 0;
    }
  }

  /** `asset_key`: the source index in decimal, a NUL, the path. */
  function AssetKey(source: nat, path: Text): Text {
    Decimal(source) + [0] + path
  }

  /** The NUL ends the number, so two assets never share a key. */
  lemma AssetKeyInjective(source: nat, path: Text, source': nat, path': Text)
    requires AssetKey(source, path) == AssetKey(source', path')
    ensures source == source' && path == path'
  {
    var d, e := Decimal(source), Decimal(source');
    var key, key' := AssetKey(source, path), AssetKey(source', path');
    DecimalDigits(source);
    DecimalDigits(source');
    assert key[|d|] == 0 && key'[|e|] == 0;
    assert forall k :: 0 <= k < |d| ==> key[k] == d[k];
    assert forall k :: 0 <= k < |e| ==> key'[k] == e[k];
    assert |d| == |e|;
    assert d == key[..|d|] == key'[..|e|] == e;
    DecimalInjective(source, source');
    assert path == key[|d| + 1..] == key'[|e| + 1..] == path';
  }

  /* ---- Sources. ---- */

  ghost predicate DistinctSources(sources: seq<Source>) {
    forall i, j :: 0 <= i < j < |sources| ==> sources[i].id != sources[j].id
  }

  function Ids(sources: seq<Source>): (ids: seq<Text>)
    ensures |ids| == |sources| && forall i :: 0 <= i < |ids| ==> ids[i] == sources[i].id
  {
    seq(|sources|, i requires 0 <= i < |sources| => sources[i].id)
  }

  /** First position of a name. */
  function Position(names: seq<Text>, name: Text): (r: Option<nat>)
    ensures r.Some? ==> r.value < |names| && names[r.value] == name
    ensures r.None? ==> name !in names
  {
    if names == [] then None
    else if names[0] == name then Some(0)
    else
      match Position(names[1..], name)
      case None => None
      case Some(i) => Some(i + 1)
  }

  function SourceIndex(sources: seq<Source>, id: Text): (r: Option<nat>)
    ensures r.Some? ==> r.value < |sources| && sources[r.value].id == id
  {
    Position(Ids(sources), id)
  }

  /* ---- Display names. ---- */

  /** The marker `%s` of a name template. */
  const MARKER: Text := [37, 115]

  predicate MarkerFree(text: Text) {
    forall i :: 0 <= i < |text| - 1 ==> !(text[i] == 37 && text[i + 1] == 115)
  }

  function Join(pieces: seq<Text>, between: Text): Text
    requires pieces != []
  {
    if |pieces| == 1 then pieces[0] else pieces[0] + between + Join(pieces[1..], between)
  }

  /** The template cut at its markers: joined again by the marker it is the template, by the display the name. */
  ghost predicate FilledBy(template: Text, display: Text, name: Text, pieces: seq<Text>) {
    && pieces != [] && (forall piece :: piece in pieces ==> MarkerFree(piece))
    && Join(pieces, MARKER) == template && Join(pieces, display) == name
  }

  /** `name` is the template with every marker replaced by the display; without one it is the template. */
  ghost predicate Names(template: Text, display: Option<Text>, name: Text) {
    match display
    case None => name == template
    case Some(text) => exists pieces :: FilledBy(template, text, name, pieces)
  }

  function Pieces(template: Text): (pieces: seq<Text>)
    ensures pieces != []
  {
    if |template| < 2 then [template]
    else if template[0] == 37 && template[1] == 115 then [[]] + Pieces(template[2..])
    else
      var rest := Pieces(template[1..]);
      [[template[0]] + rest[0]] + rest[1..]
  }

  function ReplaceMarker(template: Text, display: Text): Text {
    if |template| < 2 then template
    else if template[0] == 37 && template[1] == 115 then display + ReplaceMarker(template[2..], display)
    else [template[0]] + ReplaceMarker(template[1..], display)
  }

  /** Growing the first piece grows the joined text at its front. */
  lemma JoinFront(first: byte, pieces: seq<Text>, between: Text)
    requires pieces != []
    ensures Join([[first] + pieces[0]] + pieces[1..], between) == [first] + Join(pieces, between)
  {
    var grown := [[first] + pieces[0]] + pieces[1..];
    assert grown[1..] == pieces[1..];
    if |pieces| > 1 {
      assert Join(grown, between) == ([first] + pieces[0]) + between + Join(pieces[1..], between);
      assert Join(pieces, between) == pieces[0] + between + Join(pieces[1..], between);
    }
  }

  lemma JoinEmptyFront(pieces: seq<Text>, between: Text)
    requires pieces != []
    ensures Join([[]] + pieces, between) == between + Join(pieces, between)
  {
    assert ([[]] + pieces)[1..] == pieces;
  }

  lemma JoinStarts(pieces: seq<Text>, between: Text)
    requires pieces != [] && pieces[0] != []
    ensures Join(pieces, between) != [] && Join(pieces, between)[0] == pieces[0][0]
  {
  }

  lemma {:induction false} PiecesFill(template: Text, display: Text)
    ensures FilledBy(template, display, ReplaceMarker(template, display), Pieces(template))
  {
    hide Join;
    if |template| < 2 {
      assert Join([template], MARKER) == template && Join([template], display) == template by { SinglePiece(template); }
    } else if template[0] == 37 && template[1] == 115 {
      PiecesFill(template[2..], display);
      JoinEmptyFront(Pieces(template[2..]), MARKER);
      JoinEmptyFront(Pieces(template[2..]), display);
      assert template == MARKER + template[2..];
    } else {
      PiecesFill(template[1..], display);
      var rest := Pieces(template[1..]);
      JoinFront(template[0], rest, MARKER);
      JoinFront(template[0], rest, display);
      assert template == [template[0]] + template[1..];
      if rest[0] != [] { JoinStarts(rest, MARKER); }
      assert MarkerFree(rest[0]) && rest[0] in rest;
      var grown := [[template[0]] + rest[0]] + rest[1..];
      forall piece | piece in grown ensures MarkerFree(piece) {
        if piece != grown[0] {
          assert piece in rest;
        }
      }
    }
  }

  lemma SinglePiece(text: Text)
    ensures forall between :: Join([text], between) == text
  {
  }

  /** The first marker of a joined text stands right after its first piece. */
  lemma FirstMarker(pieces: seq<Text>, i: nat)
    requires |pieces| > 1 && MarkerFree(pieces[0]) && i < |pieces[0]|
    ensures var text := Join(pieces, MARKER);
            |text| >= |pieces[0]| + 2 && text[|pieces[0]|] == 37 && text[|pieces[0]| + 1] == 115
            && !(text[i] == 37 && text[i + 1] == 115)
  {
    assert Join(pieces, MARKER) == pieces[0] + MARKER + Join(pieces[1..], MARKER);
  }

  lemma MarkerAfterFirst(pieces: seq<Text>)
    requires |pieces| > 1
    ensures var text := Join(pieces, MARKER);
            |text| >= |pieces[0]| + 2 && text[|pieces[0]|] == 37 && text[|pieces[0]| + 1] == 115
            && text[..|pieces[0]|] == pieces[0] && text[|pieces[0]| + 2..] == Join(pieces[1..], MARKER)
  {
    assert Join(pieces, MARKER) == pieces[0] + MARKER + Join(pieces[1..], MARKER);
  }

  /** There is only one way to cut a template at its markers. */
  lemma {:induction false} CutOnce(pieces: seq<Text>, other: seq<Text>)
    requires pieces != [] && other != [] && Join(pieces, MARKER) == Join(other, MARKER)
    requires forall piece :: piece in pieces ==> MarkerFree(piece)
    requires forall piece :: piece in other ==> MarkerFree(piece)
    ensures pieces == other
    decreases |pieces| + |other|
  {
    assert pieces[0] in pieces && other[0] in other;
    if |pieces| > 1 { MarkerAfterFirst(pieces); }
    if |other| > 1 { MarkerAfterFirst(other); }
    if |pieces| > 1 && |other| > 1 {
      if |pieces[0]| < |other[0]| { FirstMarker(other, |pieces[0]|); }
      if |other[0]| < |pieces[0]| { FirstMarker(pieces, |other[0]|); }
      CutOnce(pieces[1..], other[1..]);
      assert pieces == [pieces[0]] + pieces[1..] && other == [other[0]] + other[1..];
    }
  }

  /** So a template and a display have one name. */
  lemma NameUnique(template: Text, display: Option<Text>, name: Text, other: Text)
    requires Names(template, display, name) && Names(template, display, other)
    ensures name == other
  {
    if display.Some? {
      var pieces :| FilledBy(template, display.value, name, pieces);
      var same :| FilledBy(template, display.value, other, same);
      CutOnce(pieces, same);
    }
  }

  /** Rust's `template.replace("%s", display)`; no display keeps the template as it is. */
  function DisplayName(template: Text, display: Option<Text>): (name: Text)
    ensures Names(template, display, name)
  {
    if display.None? then template
    else
      PiecesFill(template, display.value);
      ReplaceMarker(template, display.value)
  }

  /* ---- What a record means. ---- */

  ghost predicate OptionHolds(bytes: seq<byte>, reference: StringRef, value: Option<Text>) {
    match value
    case None => reference == StringRef(NONE_REF, 0)
    case Some(text) => Holds(bytes, reference, text)
  }

  /** `record` is the compiled form of `row`. */
  ghost predicate RecordMeans(
    strings: seq<byte>, record: RecordEntry, row: Row, sources: seq<Source>, assets: seq<Asset>)
  {
    && SourceIndex(sources, row.source) == Some(record.source)
    && record.audioId < |assets|
    && assets[record.audioId].source == record.source
    && assets[record.audioId].path == row.file
    && OptionHolds(strings, record.reading, row.reading)
    && OptionHolds(strings, record.speaker, row.speaker)
    && Holds(strings, record.name, DisplayName(sources[record.source].display, row.display))
    && FitsRef(record.reading) && FitsRef(record.speaker) && FitsRef(record.name)
  }

  lemma RecordMeansMonotone(
    strings: seq<byte>, more: seq<byte>, record: RecordEntry, row: Row,
    sources: seq<Source>, assets: seq<Asset>)
    requires strings <= more && RecordMeans(strings, record, row, sources, assets)
    ensures RecordMeans(more, record, row, sources, assets)
  {
    HoldsMonotone(strings, more, record.name, DisplayName(sources[record.source].display, row.display));
    if row.reading.Some? { HoldsMonotone(strings, more, record.reading, row.reading.value); }
    if row.speaker.Some? { HoldsMonotone(strings, more, record.speaker, row.speaker.value); }
  }

  function OfTerm(term: Text): Row -> bool {
    (row: Row) => row.expression == term
  }

  function RowsFor(rows: seq<Row>, term: Text): seq<Row> {
    Keep(rows, OfTerm(term))
  }

  /** The order `flush_term` gives the rows of one term: source, reading with NULL first, row id. */
  function FlushKey(sources: seq<Source>): Row -> RankKey {
    (row: Row) => RankKey(SourceIndex(sources, row.source).GetOr(0), 0, row.reading, row.id)
  }

  function CompilerOrder(rows: seq<Row>, term: Text, sources: seq<Source>): seq<Row> {
    SortByKey(RowsFor(rows, term), FlushKey(sources))
  }

  /* ---- The texts of an index. ---- */

  function OptionText(value: Option<Text>): set<Text> {
    if value.None? then {} else {value.value}
  }

  /** Every text a row brings into the string table. */
  function RowTexts(row: Row, sources: seq<Source>): set<Text> {
    {row.expression} + OptionText(row.reading) + OptionText(row.speaker)
    + match SourceIndex(sources, row.source)
      case None => {}
      case Some(i) => {DisplayName(sources[i].display, row.display)}
  }

  /** `texts` has room for whatever the rows bring. */
  ghost predicate Covers(texts: set<Text>, rows: seq<Row>, sources: seq<Source>) {
    forall row :: row in rows ==> RowTexts(row, sources) <= texts
  }

  /* ---- Flushing one term. ---- */

  /** The records of one term, appended in the order given. */
  method EmitRecords(
    ordered: seq<Row>, sources: seq<Source>, assets: seq<Asset>, assetIds: map<Text, nat>,
    table: StringTable, records: seq<RecordEntry>, ghost texts: set<Text>)
    returns (r: Result<seq<RecordEntry>>)
    requires table.Valid() && |assets| < U32_LIMIT
    requires IdsMean(assetIds, assets)
    requires forall row :: row in ordered ==> Resolved(row, sources, assetIds)
    requires table.refs.Keys <= texts && Covers(texts, ordered, sources)
    modifies table
    ensures table.Valid() && old(table.bytes) <= table.bytes && table.refs.Keys <= texts
    ensures TextBytes(texts) < U32_LIMIT ==> r.Ok?
    ensures r.Ok? ==> records <= r.value && |r.value| == |records| + |ordered|
    ensures r.Ok? ==> forall k :: 0 <= k < |ordered| ==>
              RecordMeans(table.bytes, r.value[|records| + k], ordered[k], sources, assets)
  {
    hide RecordMeans, Resolved, IdsMean, StringTable.Valid, TextBytes, RowTexts;
    var output := records;
    var k := 0;
    while k < |ordered|
      invariant 0 <= k <= |ordered|
      invariant table.Valid() && old(table.bytes) <= table.bytes && table.refs.Keys <= texts
      invariant records <= output && |output| == |records| + k
      invariant forall j :: 0 <= j < k ==>
                  RecordMeans(table.bytes, output[|records| + j], ordered[j], sources, assets)
    {
      assert Resolved(ordered[k], sources, assetIds);
      ghost var before := table.bytes;
      var record :- CompileRow(ordered[k], sources, assets, assetIds, table, texts);
      forall j | 0 <= j < k
        ensures RecordMeans(table.bytes, output[|records| + j], ordered[j], sources, assets)
      {
        RecordMeansMonotone(before, table.bytes, output[|records| + j], ordered[j], sources, assets);
      }
      output := output + [record];
      k := k + 1;
    }
    r := Ok(output);
  }

  /** The asset id map sends each asset's key to its position. */
  ghost predicate IdsMean(assetIds: map<Text, nat>, assets: seq<Asset>) {
    forall key :: key in assetIds ==>
      assetIds[key] < |assets|
      && key == AssetKey(assets[assetIds[key]].source, assets[assetIds[key]].path)
  }

  /** The row's source is configured and its audio is known. */
  ghost predicate Resolved(row: Row, sources: seq<Source>, assetIds: map<Text, nat>) {
    var index := SourceIndex(sources, row.source);
    index.Some? && AssetKey(index.value, row.file) in assetIds
  }

  lemma MakeRecord(
    b1: seq<byte>, b2: seq<byte>, b3: seq<byte>, row: Row, sources: seq<Source>, assets: seq<Asset>,
    assetIds: map<Text, nat>, reading: StringRef, speaker: StringRef, name: StringRef)
    requires IdsMean(assetIds, assets) && Resolved(row, sources, assetIds)
    requires b1 <= b2 <= b3 && FitsRef(reading) && FitsRef(speaker) && FitsRef(name)
    requires OptionHolds(b1, reading, row.reading) && OptionHolds(b2, speaker, row.speaker)
    requires Holds(b3, name, DisplayName(sources[SourceIndex(sources, row.source).value].display, row.display))
    ensures var index := SourceIndex(sources, row.source).value;
            RecordMeans(b3, RecordEntry(reading, speaker, name, assetIds[AssetKey(index, row.file)], index),
                        row, sources, assets)
  {
    hide AssetKey, DisplayName, SourceIndex, Holds;
    var index := SourceIndex(sources, row.source).value;
    var audioId := assetIds[AssetKey(index, row.file)];
    AssetKeyInjective(index, row.file, assets[audioId].source, assets[audioId].path);
    if row.reading.Some? { HoldsMonotone(b1, b3, reading, row.reading.value); }
    if row.speaker.Some? { HoldsMonotone(b2, b3, speaker, row.speaker.value); }
  }

  method CompileRow(
    row: Row, sources: seq<Source>, ghost assets: seq<Asset>, assetIds: map<Text, nat>, table: StringTable,
    ghost texts: set<Text>)
    returns (r: Result<RecordEntry>)
    requires table.Valid() && IdsMean(assetIds, assets) && Resolved(row, sources, assetIds)
    requires table.refs.Keys <= texts && RowTexts(row, sources) <= texts
    modifies table
    ensures table.Valid() && old(table.bytes) <= table.bytes && table.refs.Keys <= texts
    ensures TextBytes(texts) < U32_LIMIT ==> r.Ok?
    ensures r.Ok? ==> RecordMeans(table.bytes, r.value, row, sources, assets)
  {
    hide Holds, DisplayName, RecordMeans, IdsMean, FitsRef, AssetKey, SourceIndex, TextBytes, StringTable.Valid;
    var index := SourceIndex(sources, row.source).value;
    var audioId := assetIds[AssetKey(index, row.file)];
    if row.reading.Some? { table.HasRoom(texts, row.reading.value); }
    var reading :- table.Optional(row.reading);
    ghost var b1 := table.bytes;
    if row.speaker.Some? { table.HasRoom(texts, row.speaker.value); }
    var speaker :- table.Optional(row.speaker);
    ghost var b2 := table.bytes;
    table.HasRoom(texts, DisplayName(sources[index].display, row.display));
    var name :- table.Intern(DisplayName(sources[index].display, row.display));
    MakeRecord(b1, b2, table.bytes, row, sources, assets, assetIds, reading, speaker, name);
    r := Ok(RecordEntry(reading, speaker, name, audioId, index));
  }

  /** `flush_term`: sorts the rows of a finished term, appends its records and returns its entry. */
  method FlushTerm(
    term: Text, rows: seq<Row>, sources: seq<Source>, assets: seq<Asset>, assetIds: map<Text, nat>,
    hash: Text -> nat, table: StringTable, records: seq<RecordEntry>, ghost texts: set<Text>)
    returns (r: Result<(TermEntry, seq<RecordEntry>)>)
    requires table.Valid() && |assets| < U32_LIMIT && IdsMean(assetIds, assets)
    requires |rows| < U32_LIMIT
    requires forall row :: row in rows ==> Resolved(row, sources, assetIds)
    requires table.refs.Keys <= texts && term in texts && Covers(texts, rows, sources)
    modifies table
    ensures table.Valid() && old(table.bytes) <= table.bytes && table.refs.Keys <= texts
    ensures |records| >= U32_LIMIT ==> r.Err?
    ensures TextBytes(texts) < U32_LIMIT && |records| < U32_LIMIT ==> r.Ok?
    ensures r.Ok? ==> records <= r.value.1 && |r.value.1| == |records| + |rows|
    ensures r.Ok? ==>
              FlushedTerm(r.value.0, r.value.1, term, SortByKey(rows, FlushKey(sources)),
                          sources, assets, hash, table.bytes)
              && r.value.0.first == |records| && r.value.0.count == |rows|
  {
    hide Resolved, RecordMeans, SortByKey, Holds, FitsRef, IdsMean, FlushKey, StringTable.Valid, TextBytes, RowTexts;
    var ordered := SortByKey(rows, FlushKey(sources));
    forall row | row in ordered ensures Resolved(row, sources, assetIds) && RowTexts(row, sources) <= texts {
      SortMembers(rows, FlushKey(sources), row);
    }
    if |records| >= U32_LIMIT {
      return Err("more than 2^32 lookup records");
    }
    var output :- EmitRecords(ordered, sources, assets, assetIds, table, records, texts);
    ghost var before := table.bytes;
    table.HasRoom(texts, term);
    var reference :- table.Intern(term);
    forall k | 0 <= k < |rows|
      ensures RecordMeans(table.bytes, output[|records| + k], ordered[k], sources, assets)
    {
      RecordMeansMonotone(before, table.bytes, output[|records| + k], ordered[k], sources, assets);
    }
    // `as u32` drops the high bits of the row count.
    r := Ok((TermEntry(hash(term), reference, |records|, |rows| % U32_LIMIT), output));
  }

  ghost predicate FlushedTerm(
    entry: TermEntry, records: seq<RecordEntry>, term: Text, ordered: seq<Row>,
    sources: seq<Source>, assets: seq<Asset>, hash: Text -> nat, strings: seq<byte>)
  {
    && entry.hash == hash(term)
    && entry.first < U32_LIMIT && entry.count == |ordered| < U32_LIMIT
    && entry.first + entry.count <= |records|
    && Holds(strings, entry.text, term) && FitsRef(entry.text)
    && (forall k :: 0 <= k < entry.count ==>
          RecordMeans(strings, records[entry.first + k], ordered[k], sources, assets))
  }

  /* ---- Collecting every term. ---- */

  /** `ORDER BY expression, id`. */
  ghost predicate OrderedRows(rows: seq<Row>) {
    forall i, j :: 0 <= i < j < |rows| ==>
      Less(rows[i].expression, rows[j].expression)
      || (rows[i].expression == rows[j].expression && rows[i].id < rows[j].id)
  }

  /** Rows of one term are adjacent. */
  ghost predicate Contiguous(rows: seq<Row>) {
    forall i, j, k :: 0 <= i < j < k < |rows| && rows[i].expression == rows[k].expression
      ==> rows[j].expression == rows[k].expression
  }

  lemma OrderedContiguous(rows: seq<Row>)
    requires OrderedRows(rows)
    ensures Contiguous(rows)
  {
    forall i, j, k | 0 <= i < j < k < |rows| && rows[i].expression == rows[k].expression
      ensures rows[j].expression == rows[k].expression
    {
      var a, b := rows[i].expression, rows[j].expression;
      if Less(a, b) && Less(b, a) {
        LessTransitive(a, b, a);
        LessIrreflexive(a);
      }
    }
  }

  /** Every finished term has its entry, and nothing else has. */
  ghost predicate Finished(
    terms: seq<TermEntry>, keys: seq<Text>, records: seq<RecordEntry>, rows: seq<Row>,
    sources: seq<Source>, assets: seq<Asset>, hash: Text -> nat, strings: seq<byte>)
  {
    && |keys| == |terms|
    && (forall i, j :: 0 <= i < j < |keys| ==> keys[i] != keys[j])
    && (forall i :: 0 <= i < |keys| ==>
          FlushedTerm(terms[i], records, keys[i], CompilerOrder(rows, keys[i], sources),
                      sources, assets, hash, strings))
    && (forall i :: 0 <= i < |records| ==> Meant(strings, records[i], sources, assets))
  }

  /** The record was compiled from some row. */
  ghost predicate Meant(
    strings: seq<byte>, record: RecordEntry, sources: seq<Source>, assets: seq<Asset>)
  {
    exists row :: RecordMeans(strings, record, row, sources, assets)
  }

  lemma MeantMonotone(
    strings: seq<byte>, more: seq<byte>, record: RecordEntry, sources: seq<Source>, assets: seq<Asset>)
    requires strings <= more && Meant(strings, record, sources, assets)
    ensures Meant(more, record, sources, assets)
  {
    var row :| RecordMeans(strings, record, row, sources, assets);
    RecordMeansMonotone(strings, more, record, row, sources, assets);
  }

  lemma FlushedTermMonotone(
    entry: TermEntry, records: seq<RecordEntry>, more: seq<RecordEntry>, term: Text, ordered: seq<Row>,
    sources: seq<Source>, assets: seq<Asset>, hash: Text -> nat, strings: seq<byte>, longer: seq<byte>)
    requires FlushedTerm(entry, records, term, ordered, sources, assets, hash, strings)
    requires records <= more && strings <= longer
    ensures FlushedTerm(entry, more, term, ordered, sources, assets, hash, longer)
  {
    hide RecordMeans, Holds;
    HoldsMonotone(strings, longer, entry.text, term);
    forall k | 0 <= k < entry.count
      ensures RecordMeans(longer, more[entry.first + k], ordered[k], sources, assets)
    {
      RecordMeansMonotone(strings, longer, records[entry.first + k], ordered[k], sources, assets);
    }
  }

  /** Terms stay finished while another row is read. */
  lemma FinishedMonotone(
    terms: seq<TermEntry>, keys: seq<Text>, records: seq<RecordEntry>,
    rows: seq<Row>, row: Row, sources: seq<Source>, assets: seq<Asset>, hash: Text -> nat, strings: seq<byte>)
    requires row.expression !in keys
    requires Finished(terms, keys, records, rows, sources, assets, hash, strings)
    ensures Finished(terms, keys, records, rows + [row], sources, assets, hash, strings)
  {
    hide FlushedTerm, Meant, RowsFor;
    forall i | 0 <= i < |keys|
      ensures FlushedTerm(terms[i], records, keys[i], CompilerOrder(rows + [row], keys[i], sources),
                          sources, assets, hash, strings)
    {
      RowsForAppend(rows, row, keys[i]);
    }
  }

  lemma RowsForMembers(rows: seq<Row>, term: Text)
    ensures forall row :: row in RowsFor(rows, term) <==> row in rows && row.expression == term
  {
    forall row ensures row in RowsFor(rows, term) <==> row in rows && row.expression == term {
      KeepMembers(rows, OfTerm(term), row);
    }
  }

  lemma RowsForAppend(rows: seq<Row>, row: Row, term: Text)
    ensures RowsFor(rows + [row], term)
         == if row.expression == term then RowsFor(rows, term) + [row] else RowsFor(rows, term)
  {
    KeepAppend(rows, row, OfTerm(term));
  }

  lemma FinishedAppend(
    terms: seq<TermEntry>, keys: seq<Text>, records: seq<RecordEntry>, more: seq<RecordEntry>,
    rows: seq<Row>, sources: seq<Source>, assets: seq<Asset>, hash: Text -> nat,
    strings: seq<byte>, longer: seq<byte>, entry: TermEntry, term: Text)
    requires Finished(terms, keys, records, rows, sources, assets, hash, strings)
    requires records <= more && strings <= longer && term !in keys
    requires FlushedTerm(entry, more, term, CompilerOrder(rows, term, sources), sources, assets, hash, longer)
    requires entry.first == |records| && entry.first + entry.count == |more|
    ensures Finished(terms + [entry], keys + [term], more, rows, sources, assets, hash, longer)
  {
    hide CompilerOrder, RecordMeans, Holds;
    forall i | 0 <= i < |keys|
      ensures FlushedTerm(terms[i], more, keys[i], CompilerOrder(rows, keys[i], sources),
                          sources, assets, hash, longer)
    {
      FlushedTermMonotone(terms[i], records, more, keys[i], CompilerOrder(rows, keys[i], sources),
                          sources, assets, hash, strings, longer);
    }
    forall i | 0 <= i < |more| ensures Meant(longer, more[i], sources, assets) {
      if i < |records| {
        MeantMonotone(strings, longer, records[i], sources, assets);
      } else {
        var row := CompilerOrder(rows, term, sources)[i - |records|];
        assert more[entry.first + (i - |records|)] == more[i];
        assert RecordMeans(longer, more[i], row, sources, assets);
      }
    }
  }

  ghost predicate HasTerm(rows: seq<Row>, term: Text) {
    exists row :: row in rows && row.expression == term
  }

  lemma HasTermAppend(rows: seq<Row>, row: Row, term: Text)
    ensures HasTerm(rows + [row], term) <==> HasTerm(rows, term) || row.expression == term
  {
    if HasTerm(rows, term) {
      var other :| other in rows && other.expression == term;
      assert other in rows + [row];
    }
    assert row in rows + [row];
  }

  /** The term being read is the last row's, and its rows are exactly the ones held back. */
  ghost predicate Reading(
    rows: seq<Row>, keys: seq<Text>, active: Option<Text>, activeRows: seq<Row>)
  {
    && (active.None? <==> rows == [])
    && (active.None? ==> activeRows == [])
    && (active.Some? ==>
          active.value == rows[|rows| - 1].expression
          && active.value !in keys && activeRows == RowsFor(rows, active.value))
    && (forall term :: HasTerm(rows, term) <==> term in keys || Some(term) == active)
  }

  lemma ReadSameTerm(
    rows: seq<Row>, row: Row, keys: seq<Text>, active: Option<Text>, activeRows: seq<Row>)
    requires Reading(rows, keys, active, activeRows) && active == Some(row.expression)
    ensures Reading(rows + [row], keys, active, activeRows + [row])
    ensures row.expression !in keys
  {
    hide HasTerm, RowsFor;
    RowsForAppend(rows, row, row.expression);
    forall term ensures HasTerm(rows + [row], term) <==> term in keys || Some(term) == active {
      HasTermAppend(rows, row, term);
    }
  }

  lemma RowsForNone(rows: seq<Row>, term: Text)
    requires !HasTerm(rows, term)
    ensures RowsFor(rows, term) == []
  {
    var kept := RowsFor(rows, term);
    if kept != [] {
      KeepMembers(rows, OfTerm(term), kept[0]);
    }
  }

  /** When the term changes, the new one was never seen before. */
  lemma ReadNextTerm(
    rows: seq<Row>, row: Row, keys: seq<Text>, active: Option<Text>, activeRows: seq<Row>)
    requires Reading(rows, keys, active, activeRows) && active != Some(row.expression)
    requires !HasTerm(rows, row.expression)
    ensures var keys' := if active.Some? then keys + [active.value] else keys;
            row.expression !in keys'
            && Reading(rows + [row], keys', Some(row.expression), [row])
  {
    hide HasTerm, RowsFor;
    var term := row.expression;
    var keys' := if active.Some? then keys + [active.value] else keys;
    RowsForNone(rows, term);
    RowsForAppend(rows, row, term);
    forall other ensures HasTerm(rows + [row], other) <==> other in keys' || other == term {
      HasTermAppend(rows, row, other);
      assert HasTerm(rows, other) <==> other in keys || Some(other) == active;
    }
  }

  /** A term left behind does not come back. */
  lemma NewTermUnseen(rows: seq<Row>, k: nat)
    requires Contiguous(rows) && k < |rows| && (k > 0 ==> rows[k - 1].expression != rows[k].expression)
    ensures !HasTerm(rows[..k], rows[k].expression)
  {
    forall j | 0 <= j < k ensures rows[j].expression != rows[k].expression {
    }
    forall row | row in rows[..k] ensures row.expression != rows[k].expression {
      var j :| 0 <= j < k && rows[..k][j] == row;
      assert rows[j] == row;
    }
  }

  /** The loop state of `collect_records` after a prefix of the rows. */
  ghost predicate Collecting(
    rows: seq<Row>, terms: seq<TermEntry>, keys: seq<Text>, records: seq<RecordEntry>,
    active: Option<Text>, activeRows: seq<Row>,
    sources: seq<Source>, assets: seq<Asset>, assetIds: map<Text, nat>, hash: Text -> nat, strings: seq<byte>)
  {
    && Finished(terms, keys, records, rows, sources, assets, hash, strings)
    && Reading(rows, keys, active, activeRows)
    && |records| + |activeRows| == |rows|
    && (forall row :: row in rows ==> Resolved(row, sources, assetIds))
  }

  /** Flushes the term being read, as both exits of the loop do. */
  method FlushActive(
    ghost rows: seq<Row>, active: Text, activeRows: seq<Row>, sources: seq<Source>,
    assets: seq<Asset>, assetIds: map<Text, nat>, hash: Text -> nat, table: StringTable,
    terms: seq<TermEntry>, ghost keys: seq<Text>, records: seq<RecordEntry>, ghost texts: set<Text>)
    returns (r: Result<(seq<TermEntry>, seq<RecordEntry>)>)
    requires table.Valid() && |rows| < U32_LIMIT
    requires table.refs.Keys <= texts && Covers(texts, rows, sources)
    requires |assets| < U32_LIMIT && IdsMean(assetIds, assets)
    requires Collecting(rows, terms, keys, records, Some(active), activeRows,
                        sources, assets, assetIds, hash, table.bytes)
    modifies table
    ensures table.Valid() && old(table.bytes) <= table.bytes && table.refs.Keys <= texts
    ensures TextBytes(texts) < U32_LIMIT ==> r.Ok?
    ensures r.Ok? ==>
              Finished(r.value.0, keys + [active], r.value.1, rows, sources, assets, hash, table.bytes)
    ensures r.Ok? ==> |r.value.1| == |rows|
  {
    hide FlushedTerm, IdsMean, Finished, Resolved, SortByKey, RowsFor, HasTerm, TextBytes;
    ghost var strings := table.bytes;
    RowsForMembers(rows, active);
    assert rows[|rows| - 1] in rows && active in texts;
    hide RowTexts;
    var flushed :- FlushTerm(active, activeRows, sources, assets, assetIds, hash, table, records, texts);
    FinishedAppend(terms, keys, records, flushed.1, rows, sources, assets, hash,
                   strings, table.bytes, flushed.0, active);
    r := Ok((terms + [flushed.0], flushed.1));
  }

  /** One row: flushes the previous term when the expression changes, then holds the row back. */
  method CollectRow(
    ghost rows: seq<Row>, row: Row, sources: seq<Source>, assets: seq<Asset>, assetIds: map<Text, nat>,
    hash: Text -> nat, table: StringTable,
    terms: seq<TermEntry>, ghost keys: seq<Text>, records: seq<RecordEntry>,
    active: Option<Text>, activeRows: seq<Row>, ghost texts: set<Text>)
    returns (r: Result<(seq<TermEntry>, seq<RecordEntry>)>, ghost keys': seq<Text>,
             active': Option<Text>, activeRows': seq<Row>)
    requires table.Valid() && |rows| < U32_LIMIT
    requires table.refs.Keys <= texts && Covers(texts, rows, sources)
    requires |assets| < U32_LIMIT && IdsMean(assetIds, assets)
    requires Collecting(rows, terms, keys, records, active, activeRows,
                        sources, assets, assetIds, hash, table.bytes)
    requires active != Some(row.expression) ==> !HasTerm(rows, row.expression)
    modifies table
    ensures table.Valid() && old(table.bytes) <= table.bytes && table.refs.Keys <= texts
    ensures TextBytes(texts) < U32_LIMIT && Resolved(row, sources, assetIds) ==> r.Ok?
    ensures r.Ok? ==> Resolved(row, sources, assetIds)
    ensures r.Ok? ==>
              Collecting(rows + [row], r.value.0, keys', r.value.1, active', activeRows',
                         sources, assets, assetIds, hash, table.bytes)
  {
    hide IdsMean, Collecting, Finished, AssetKey, SourceIndex, HasTerm, TextBytes, Covers;
    ghost var strings := table.bytes;
    var terms', records' := terms, records;
    keys', active', activeRows' := keys, active, activeRows;
    if active != Some(row.expression) {
      if active.Some? {
        var flushed :- FlushActive(rows, active.value, activeRows, sources, assets, assetIds,
                                   hash, table, terms, keys, records, texts);
        terms', records' := flushed.0, flushed.1;
        keys' := keys + [active.value];
      }
      active', activeRows' := Some(row.expression), [];
    }
    var index := SourceIndex(sources, row.source);
    if index.None? {
      return Err("entries.db references unconfigured source"), keys', active', activeRows';
    }
    if AssetKey(index.value, row.file) !in assetIds {
      return Err("entry references unknown audio"), keys', active', activeRows';
    }
    activeRows' := activeRows' + [row];
    assert Resolved(row, sources, assetIds);
    if active != Some(row.expression) {
      assert activeRows' == [row];
      NextTermCollected(rows, row, terms, terms', keys, records, records', active, activeRows,
                        sources, assets, assetIds, hash, strings, table.bytes);
    } else {
      SameTermCollected(rows, row, terms, keys, records, active, activeRows,
                        sources, assets, assetIds, hash, strings);
    }
    r := Ok((terms', records'));
  }

  /** `collect_records`: one entry for every distinct expression, over all rows. */
  method CollectRecords(
    rows: seq<Row>, sources: seq<Source>, assets: seq<Asset>, assetIds: map<Text, nat>,
    hash: Text -> nat, table: StringTable, ghost texts: set<Text>)
    returns (r: Result<(seq<TermEntry>, seq<RecordEntry>)>, ghost keys: seq<Text>)
    requires table.Valid() && Contiguous(rows) && |rows| < U32_LIMIT
    requires |assets| < U32_LIMIT && IdsMean(assetIds, assets)
    requires table.refs.Keys <= texts && Covers(texts, rows, sources)
    modifies table
    ensures table.Valid() && old(table.bytes) <= table.bytes && table.refs.Keys <= texts
    // With room for every text it fails exactly on a row whose source or audio is unknown.
    ensures TextBytes(texts) < U32_LIMIT ==>
              (r.Ok? <==> forall row :: row in rows ==> Resolved(row, sources, assetIds))
    ensures r.Ok? ==>
              Finished(r.value.0, keys, r.value.1, rows, sources, assets, hash, table.bytes)
    ensures r.Ok? ==> |r.value.1| == |rows|
    ensures r.Ok? ==> forall term :: term in keys <==> HasTerm(rows, term)
    ensures r.Ok? ==> forall row :: row in rows ==> Resolved(row, sources, assetIds)
  {
    hide IdsMean, Contiguous, Collecting, Finished, Resolved, HasTerm, RowsFor, TextBytes, RowTexts;
    var terms: seq<TermEntry>, records: seq<RecordEntry> := [], [];
    var active: Option<Text>, activeRows: seq<Row> := None, [];
    keys := [];
    StartsEmpty(sources, assets, assetIds, hash, table.bytes);
    assert rows[..0] == [];
    var k := 0;
    while k < |rows|
      invariant 0 <= k <= |rows|
      invariant table.Valid() && old(table.bytes) <= table.bytes && table.refs.Keys <= texts
      invariant Collecting(rows[..k], terms, keys, records, active, activeRows,
                           sources, assets, assetIds, hash, table.bytes)
    {
      assert rows[..k + 1] == rows[..k] + [rows[k]];
      NextIsUnseen(rows, k, terms, keys, records, active, activeRows,
                   sources, assets, assetIds, hash, table.bytes);
      var step;
      step, keys, active, activeRows :=
        CollectRow(rows[..k], rows[k], sources, assets, assetIds, hash, table,
                   terms, keys, records, active, activeRows, texts);
      if step.Err? {
        assert rows[k] in rows;
        return Err(step.message), keys;
      }
      terms, records := step.value.0, step.value.1;
      k := k + 1;
    }
    assert rows[..k] == rows;
    CollectedAll(rows, terms, keys, records, active, activeRows,
                 sources, assets, assetIds, hash, table.bytes);
    if active.Some? {
      var flushed :- FlushActive(rows, active.value, activeRows, sources, assets, assetIds,
                                 hash, table, terms, keys, records, texts);
      terms, records := flushed.0, flushed.1;
      keys := keys + [active.value];
    }
    r := Ok((terms, records));
  }

  lemma StartsEmpty(
    sources: seq<Source>, assets: seq<Asset>, assetIds: map<Text, nat>, hash: Text -> nat, strings: seq<byte>)
    ensures Collecting([], [], [], [], None, [], sources, assets, assetIds, hash, strings)
  {
  }

  lemma NextIsUnseen(
    rows: seq<Row>, k: nat, terms: seq<TermEntry>, keys: seq<Text>, records: seq<RecordEntry>,
    active: Option<Text>, activeRows: seq<Row>,
    sources: seq<Source>, assets: seq<Asset>, assetIds: map<Text, nat>, hash: Text -> nat, strings: seq<byte>)
    requires Contiguous(rows) && k < |rows|
    requires Collecting(rows[..k], terms, keys, records, active, activeRows,
                        sources, assets, assetIds, hash, strings)
    ensures active != Some(rows[k].expression) ==> !HasTerm(rows[..k], rows[k].expression)
  {
    hide Finished, Contiguous, HasTerm;
    if active != Some(rows[k].expression) {
      assert k > 0 ==> rows[..k][k - 1] == rows[k - 1];
      NewTermUnseen(rows, k);
    }
  }

  lemma SameTermCollected(
    rows: seq<Row>, row: Row, terms: seq<TermEntry>, keys: seq<Text>, records: seq<RecordEntry>,
    active: Option<Text>, activeRows: seq<Row>,
    sources: seq<Source>, assets: seq<Asset>, assetIds: map<Text, nat>, hash: Text -> nat, strings: seq<byte>)
    requires Collecting(rows, terms, keys, records, active, activeRows,
                        sources, assets, assetIds, hash, strings)
    requires active == Some(row.expression) && Resolved(row, sources, assetIds)
    ensures Collecting(rows + [row], terms, keys, records, active, activeRows + [row],
                       sources, assets, assetIds, hash, strings)
  {
    hide Finished, Resolved, RowsFor, HasTerm;
    ReadSameTerm(rows, row, keys, active, activeRows);
    FinishedMonotone(terms, keys, records, rows, row, sources, assets, hash, strings);
  }

  lemma NextTermCollected(
    rows: seq<Row>, row: Row, terms: seq<TermEntry>, terms': seq<TermEntry>, keys: seq<Text>,
    records: seq<RecordEntry>, records': seq<RecordEntry>, active: Option<Text>, activeRows: seq<Row>,
    sources: seq<Source>, assets: seq<Asset>, assetIds: map<Text, nat>, hash: Text -> nat,
    strings: seq<byte>, strings': seq<byte>)
    requires Collecting(rows, terms, keys, records, active, activeRows,
                        sources, assets, assetIds, hash, strings)
    requires active != Some(row.expression) && !HasTerm(rows, row.expression)
    requires Resolved(row, sources, assetIds)
    requires active.Some? ==>
               Finished(terms', keys + [active.value], records', rows, sources, assets, hash, strings')
               && |records'| == |rows|
    requires active.None? ==> terms' == terms && records' == records && strings' == strings
    ensures var keys' := if active.Some? then keys + [active.value] else keys;
            Collecting(rows + [row], terms', keys', records', Some(row.expression), [row],
                       sources, assets, assetIds, hash, strings')
  {
    hide Finished, Resolved, RowsFor, HasTerm;
    var keys' := if active.Some? then keys + [active.value] else keys;
    ReadNextTerm(rows, row, keys, active, activeRows);
    FinishedMonotone(terms', keys', records', rows, row, sources, assets, hash, strings');
  }

  lemma CollectedAll(
    rows: seq<Row>, terms: seq<TermEntry>, keys: seq<Text>, records: seq<RecordEntry>,
    active: Option<Text>, activeRows: seq<Row>,
    sources: seq<Source>, assets: seq<Asset>, assetIds: map<Text, nat>, hash: Text -> nat, strings: seq<byte>)
    requires Collecting(rows, terms, keys, records, active, activeRows,
                        sources, assets, assetIds, hash, strings)
    ensures var all := if active.Some? then keys + [active.value] else keys;
            forall term :: term in all <==> HasTerm(rows, term)
    ensures active.None? ==>
              Finished(terms, keys, records, rows, sources, assets, hash, strings) && |records| == |rows|
    ensures forall row :: row in rows ==> Resolved(row, sources, assetIds)
  {
    hide Finished, Resolved;
  }
}
