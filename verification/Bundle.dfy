/** The memory-mapped bundle: header checks and table accessors, with every error exit. */
module Bundle {
  import opened Wrappers
  import opened Text
  import opened LittleEndian
  import opened Strings
  import opened Layout

  /** An opened `lookup.bin`; `sources` are the source ids of the manifest. */
  datatype Bundle = Bundle(index: seq<byte>, header: Header, packLength: nat, sources: seq<Text>)

  function CheckedSection(offset: nat, length: nat, total: nat): Result<()> {
    if offset + length >= U64_LIMIT then Err("lookup section length overflow")
    else Ensure(offset + length <= total, "lookup section is truncated")
  }

  function CheckedTablePos(offset: nat, index: nat, width: nat, total: nat): Result<nat> {
    if index * width >= U64_LIMIT then Err("table index overflow")
    else if offset + index * width >= U64_LIMIT then Err("table offset overflow")
    else
      var _ :- CheckedSection(offset + index * width, width, total);
      Ok(offset + index * width)
  }

  function ReadHeader(index: seq<byte>): Result<Header> {
    var termCount :- Read(index, 16, 8);
    var recordCount :- Read(index, 24, 8);
    var audioCount :- Read(index, 32, 8);
    var fanoutOffset :- Read(index, 40, 8);
    var termsOffset :- Read(index, 48, 8);
    var recordsOffset :- Read(index, 56, 8);
    var audioOffset :- Read(index, 64, 8);
    var stringsOffset :- Read(index, 72, 8);
    var stringsLen :- Read(index, 80, 8);
    var bucketCount :- Read(index, 88, 8);
    var bucketsOffset :- Read(index, 96, 8);
    var slotsOffset :- Read(index, 104, 8);
    Ok(Header(termCount, recordCount, audioCount, fanoutOffset, termsOffset, recordsOffset,
              audioOffset, stringsOffset, stringsLen, bucketCount, bucketsOffset, slotsOffset))
  }

  function CheckHeader(h: Header, total: nat): Result<()> {
    var _ :- Ensure(h.fanoutOffset >= HEADER_LEN, "fanout overlaps header");
    var _ :- CheckedSection(h.fanoutOffset, FANOUT_LEN * 4, total);
    var _ :- Ensure(h.termCount * TERM_LEN < U64_LIMIT, "term table length overflow");
    var _ :- CheckedSection(h.termsOffset, h.termCount * TERM_LEN, total);
    var _ :- Ensure(h.bucketCount * 4 < U64_LIMIT, "MPH bucket table length overflow");
    var _ :- CheckedSection(h.bucketsOffset, h.bucketCount * 4, total);
    var _ :- CheckedSection(h.slotsOffset, h.termCount * TERM_LEN, total);
    var _ :- Ensure(h.recordCount * RECORD_LEN < U64_LIMIT, "record table length overflow");
    var _ :- CheckedSection(h.recordsOffset, h.recordCount * RECORD_LEN, total);
    var _ :- Ensure(h.audioCount * AUDIO_LEN < U64_LIMIT, "audio table length overflow");
    var _ :- CheckedSection(h.audioOffset, h.audioCount * AUDIO_LEN, total);
    var _ :- CheckedSection(h.stringsOffset, h.stringsLen, total);
    Ensure(
      h.fanoutOffset <= h.termsOffset <= h.bucketsOffset <= h.slotsOffset <= h.recordsOffset
      && h.recordsOffset <= h.audioOffset <= h.stringsOffset,
      "lookup sections are out of order")
  }

  /** `parse_header`. */
  function ParseHeader(index: seq<byte>, verify: bool, checksum: seq<byte> -> seq<byte>): Result<Header> {
    if |index| < HEADER_LEN then Err("lookup file is truncated before its header")
    else
      var _ :- Ensure(index[0..8] == MAGIC, "lookup magic is invalid");
      var version :- Read(index, 8, 4);
      var _ :- Ensure(version == FORMAT_VERSION, "lookup format version is unsupported");
      var size :- Read(index, 12, 4);
      var _ :- Ensure(size == HEADER_LEN, "lookup header size is invalid");
      var _ :- Ensure(
        verify ==> index[CHECKSUM_OFFSET..CHECKSUM_END] == checksum(index[HEADER_LEN..]),
        "lookup payload checksum failed");
      var h :- ReadHeader(index);
      var _ :- CheckHeader(h, |index|);
      Ok(h)
  }

  /** Every section lies inside the file, none before the header, and they begin in order. */
  predicate SoundHeader(h: Header, total: nat) {
    && HEADER_LEN <= h.fanoutOffset <= h.termsOffset <= h.bucketsOffset <= h.slotsOffset
    && h.slotsOffset <= h.recordsOffset <= h.audioOffset <= h.stringsOffset
    && h.fanoutOffset + 4 * FANOUT_LEN <= total
    && h.termsOffset + TERM_LEN * h.termCount <= total
    && h.bucketsOffset + 4 * h.bucketCount <= total
    && h.slotsOffset + TERM_LEN * h.termCount <= total
    && h.recordsOffset + RECORD_LEN * h.recordCount <= total
    && h.audioOffset + AUDIO_LEN * h.audioCount <= total
    && h.stringsOffset + h.stringsLen <= total
  }

  lemma CheckHeaderExactly(h: Header, total: nat)
    requires total < U64_LIMIT
    ensures CheckHeader(h, total).Ok? <==> SoundHeader(h, total)
  {
  }

  /**
   * A file is accepted if and only if it begins with the magic, version and header size, carries the
   * checksum of its payload if that is verified, and holds every section its header names.
   */
  lemma ParseHeaderExactly(index: seq<byte>, verify: bool, checksum: seq<byte> -> seq<byte>)
    requires |index| < U64_LIMIT
    ensures ParseHeader(index, verify, checksum).Ok? <==>
              && |index| >= HEADER_LEN && MAGIC <= index
              && Read(index, 8, 4) == Ok(FORMAT_VERSION) && Read(index, 12, 4) == Ok(HEADER_LEN)
              && (verify ==> index[CHECKSUM_OFFSET..CHECKSUM_END] == checksum(index[HEADER_LEN..]))
              && ReadHeader(index).Ok? && SoundHeader(ReadHeader(index).value, |index|)
    ensures ParseHeader(index, verify, checksum).Ok? ==>
              ParseHeader(index, verify, checksum) == ReadHeader(index)
  {
    hide CheckHeader, SoundHeader, ReadHeader, Read;
    if ReadHeader(index).Ok? {
      CheckHeaderExactly(ReadHeader(index).value, |index|);
    }
  }

  /* ---- Accessors. ---- */

  function Fanout(b: Bundle, i: nat): Result<nat> {
    var _ :- Ensure(i < FANOUT_LEN, "fanout index out of range");
    var pos :- CheckedTablePos(b.header.fanoutOffset, i, 4, |b.index|);
    Read(b.index, pos, 4)
  }

  function ParseTerm(bytes: seq<byte>): Result<TermEntry> {
    var hash :- Read(bytes, 0, 8);
    var offset :- Read(bytes, 8, 4);
    var len :- Read(bytes, 12, 4);
    var first :- Read(bytes, 16, 4);
    var count :- Read(bytes, 20, 4);
    Ok(TermEntry(hash, StringRef(offset, len), first, count))
  }

  function Slice(bytes: seq<byte>, pos: nat, width: nat): seq<byte> {
    if pos + width <= |bytes| then bytes[pos..pos + width] else []
  }

  function Term(b: Bundle, i: nat): Result<TermEntry> {
    var _ :- Ensure(i < b.header.termCount, "term index out of range");
    var pos :- CheckedTablePos(b.header.termsOffset, i, TERM_LEN, |b.index|);
    ParseTerm(Slice(b.index, pos, TERM_LEN))
  }

  function MphTerm(b: Bundle, i: nat): Result<TermEntry> {
    var _ :- Ensure(i < b.header.termCount, "MPH term index out of range");
    var pos :- CheckedTablePos(b.header.slotsOffset, i, TERM_LEN, |b.index|);
    ParseTerm(Slice(b.index, pos, TERM_LEN))
  }

  function MphDisplacement(b: Bundle, i: nat): Result<int> {
    var _ :- Ensure(i < b.header.bucketCount, "MPH bucket out of range");
    var pos :- CheckedTablePos(b.header.bucketsOffset, i, 4, |b.index|);
    Ok(DecodeI32(Slice(b.index, pos, 4)))
  }

  function ParseRecord(bytes: seq<byte>): Result<RecordEntry> {
    var readingOffset :- Read(bytes, 0, 4);
    var readingLen :- Read(bytes, 4, 4);
    var speakerOffset :- Read(bytes, 8, 4);
    var speakerLen :- Read(bytes, 12, 4);
    var nameOffset :- Read(bytes, 16, 4);
    var nameLen :- Read(bytes, 20, 4);
    var audioId :- Read(bytes, 24, 4);
    var source :- Read(bytes, 28, 2);
    Ok(RecordEntry(StringRef(readingOffset, readingLen), StringRef(speakerOffset, speakerLen),
                   StringRef(nameOffset, nameLen), audioId, source))
  }

  function Record(b: Bundle, i: nat): Result<RecordEntry> {
    var _ :- Ensure(i < b.header.recordCount, "record index out of range");
    var pos :- CheckedTablePos(b.header.recordsOffset, i, RECORD_LEN, |b.index|);
    ParseRecord(Slice(b.index, pos, RECORD_LEN))
  }

  function ParseAudio(bytes: seq<byte>): Result<AudioEntry> {
    var packOffset :- Read(bytes, 0, 8);
    var length :- Read(bytes, 8, 8);
    var pathOffset :- Read(bytes, 16, 4);
    var pathLen :- Read(bytes, 20, 4);
    var hashPrefix :- Read(bytes, 24, 8);
    var source :- Read(bytes, 32, 2);
    var mime :- Read(bytes, 34, 1);
    var _ :- Ensure(1 <= mime <= 6, "invalid MIME tag");
    Ok(AudioEntry(packOffset, length, StringRef(pathOffset, pathLen), hashPrefix, source, mime))
  }

  function Audio(b: Bundle, i: nat): Result<AudioEntry> {
    var _ :- Ensure(i < b.header.audioCount, "audio index out of range");
    var pos :- CheckedTablePos(b.header.audioOffset, i, AUDIO_LEN, |b.index|);
    ParseAudio(Slice(b.index, pos, AUDIO_LEN))
  }

  function String(b: Bundle, reference: StringRef): Result<Text> {
    var _ :- Ensure(reference.offset != NONE_REF, "null string reference");
    var start := b.header.stringsOffset + reference.offset;
    var end := start + reference.len;
    var _ :- Ensure(end < U64_LIMIT, "string length overflow");
    var _ :- Ensure(end <= b.header.stringsOffset + b.header.stringsLen,
                    "string reference is outside string table");
    Ok(Slice(b.index, start, reference.len))
  }

  function OptionalString(b: Bundle, reference: StringRef): Result<Option<Text>> {
    if reference.offset == NONE_REF then Ok(None)
    else
      var text :- String(b, reference);
      Ok(Some(text))
  }

  /* ---- Round trip. ---- */

  /** The accessors give back the tables, and refuse everything outside them. */
  ghost predicate Decodes(b: Bundle, t: Tables) {
    && b.header.termCount == |t.terms| == |t.slots|
    && b.header.bucketCount == |t.displacements|
    && b.header.recordCount == |t.records|
    && b.header.audioCount == |t.audio|
    && |t.fanout| == FANOUT_LEN
    && (forall i :: 0 <= i < FANOUT_LEN ==> Fanout(b, i) == Ok(t.fanout[i]))
    && (forall i :: 0 <= i < |t.terms| ==> Term(b, i) == Ok(t.terms[i]))
    && (forall i :: 0 <= i < |t.slots| ==> MphTerm(b, i) == Ok(t.slots[i]))
    && (forall i :: 0 <= i < |t.displacements| ==> MphDisplacement(b, i) == Ok(t.displacements[i]))
    && (forall i :: 0 <= i < |t.records| ==> Record(b, i) == Ok(t.records[i]))
    && (forall i :: 0 <= i < |t.audio| ==> Audio(b, i) == Ok(t.audio[i]))
    && (forall reference, text :: Readable(t.strings, reference, text) ==> String(b, reference) == Ok(text))
    && (forall reference, value :: OptionReadable(t.strings, reference, value)
          ==> OptionalString(b, reference) == Ok(value))
  }

  lemma ItemRead(index: seq<byte>, offset: nat, items: seq<seq<byte>>, width: nat, next: nat, i: nat)
    requires AllWidth(items, width) && i < |items|
    requires SectionAt(index, offset, Flatten(items), next) && |index| < U64_LIMIT
    ensures CheckedTablePos(offset, i, width, |index|) == Ok(offset + i * width)
    ensures Slice(index, offset + i * width, width) == items[i]
  {
    hide Flatten;
    TableSlice(index, offset, items, width, i);
  }

  lemma ParseTermEncoded(e: TermEntry)
    requires FitsTerm(e)
    ensures ParseTerm(EncodeTerm(e)) == Ok(e)
  {
    Widths();
    var b := EncodeTerm(e);
    assert b[0..8] == Encode(e.hash, 8);
    assert b[8..12] == Encode(e.text.offset, 4);
    assert b[12..16] == Encode(e.text.len, 4);
    assert b[16..20] == Encode(e.first, 4);
    assert b[20..24] == Encode(e.count, 4);
    ReadField(b, 0, e.hash, 8);
    ReadField(b, 8, e.text.offset, 4);
    ReadField(b, 12, e.text.len, 4);
    ReadField(b, 16, e.first, 4);
    ReadField(b, 20, e.count, 4);
  }

  lemma ParseRecordEncoded(r: RecordEntry)
    requires FitsRecord(r)
    ensures ParseRecord(EncodeRecord(r)) == Ok(r)
  {
    Widths();
    var b := EncodeRecord(r);
    assert b[0..4] == Encode(r.reading.offset, 4);
    assert b[4..8] == Encode(r.reading.len, 4);
    assert b[8..12] == Encode(r.speaker.offset, 4);
    assert b[12..16] == Encode(r.speaker.len, 4);
    assert b[16..20] == Encode(r.name.offset, 4);
    assert b[20..24] == Encode(r.name.len, 4);
    assert b[24..28] == Encode(r.audioId, 4);
    assert b[28..30] == Encode(r.source, 2);
    ReadField(b, 0, r.reading.offset, 4);
    ReadField(b, 4, r.reading.len, 4);
    ReadField(b, 8, r.speaker.offset, 4);
    ReadField(b, 12, r.speaker.len, 4);
    ReadField(b, 16, r.name.offset, 4);
    ReadField(b, 20, r.name.len, 4);
    ReadField(b, 24, r.audioId, 4);
    ReadField(b, 28, r.source, 2);
  }

  lemma ParseAudioEncoded(a: AudioEntry)
    requires FitsAudio(a)
    ensures ParseAudio(EncodeAudio(a)) == Ok(a)
  {
    Widths();
    var b := EncodeAudio(a);
    assert b[0..8] == Encode(a.packOffset, 8);
    assert b[8..16] == Encode(a.length, 8);
    assert b[16..20] == Encode(a.path.offset, 4);
    assert b[20..24] == Encode(a.path.len, 4);
    assert b[24..32] == Encode(a.hashPrefix, 8);
    assert b[32..34] == Encode(a.source, 2);
    assert b[34..35] == Encode(a.mime, 1);
    ReadField(b, 0, a.packOffset, 8);
    ReadField(b, 8, a.length, 8);
    ReadField(b, 16, a.path.offset, 4);
    ReadField(b, 20, a.path.len, 4);
    ReadField(b, 24, a.hashPrefix, 8);
    ReadField(b, 32, a.source, 2);
    ReadField(b, 34, a.mime, 1);
  }

  ghost predicate FitsHeader(h: Header) {
    && h.termCount < U64_LIMIT && h.recordCount < U64_LIMIT && h.audioCount < U64_LIMIT
    && h.fanoutOffset < U64_LIMIT && h.termsOffset < U64_LIMIT && h.recordsOffset < U64_LIMIT
    && h.audioOffset < U64_LIMIT && h.stringsOffset < U64_LIMIT && h.stringsLen < U64_LIMIT
    && h.bucketCount < U64_LIMIT && h.bucketsOffset < U64_LIMIT && h.slotsOffset < U64_LIMIT
  }

  lemma ReadHeaderWritten(bytes: seq<byte>, h: Header)
    requires HeaderWritten(bytes, h) && FitsHeader(h)
    ensures ReadHeader(bytes) == Ok(h)
    ensures Read(bytes, 8, 4) == Ok(FORMAT_VERSION) && Read(bytes, 12, 4) == Ok(HEADER_LEN)
  {
    Widths();
    ReadField(bytes, 8, FORMAT_VERSION, 4);
    ReadField(bytes, 12, HEADER_LEN, 4);
    ReadField(bytes, 16, h.termCount, 8);
    ReadField(bytes, 24, h.recordCount, 8);
    ReadField(bytes, 32, h.audioCount, 8);
    ReadField(bytes, 40, h.fanoutOffset, 8);
    ReadField(bytes, 48, h.termsOffset, 8);
    ReadField(bytes, 56, h.recordsOffset, 8);
    ReadField(bytes, 64, h.audioOffset, 8);
    ReadField(bytes, 72, h.stringsOffset, 8);
    ReadField(bytes, 80, h.stringsLen, 8);
    ReadField(bytes, 88, h.bucketCount, 8);
    ReadField(bytes, 96, h.bucketsOffset, 8);
    ReadField(bytes, 104, h.slotsOffset, 8);
  }

  /** A header belongs to tables when it places them and counts them. */
  ghost predicate Describes(h: Header, t: Tables) {
    && Spaced(h, t)
    && h.termCount == |t.terms| && h.recordCount == |t.records| && h.audioCount == |t.audio|
    && h.bucketCount == |t.displacements| && h.stringsLen == |t.strings|
    && h.stringsOffset + |t.strings| < U64_LIMIT
  }

  lemma CheckHeaderPasses(h: Header, t: Tables)
    requires Describes(h, t) && |t.slots| == |t.terms| && |t.fanout| == FANOUT_LEN
    ensures FitsHeader(h) && CheckHeader(h, h.stringsOffset + |t.strings|) == Ok(())
  {
  }

  /** `parse_header` accepts every file `write_lookup` produces and recovers its layout. */
  lemma ParseHeaderAccepts(bytes: seq<byte>, t: Tables, verify: bool, checksum: seq<byte> -> seq<byte>)
    requires Fits(t) && TotalLength(t) < U64_LIMIT && Written(bytes, t, checksum)
    ensures ParseHeader(bytes, verify, checksum) == Ok(Place(t))
  {
    hide CheckHeader, ReadHeader, FitsHeader;
    var h := Place(t);
    CheckHeaderPasses(h, t);
    ReadHeaderWritten(bytes, h);
  }

  lemma FanoutDecodes(b: Bundle, t: Tables, i: nat)
    requires i < FANOUT_LEN == |t.fanout| && t.fanout[i] < U32_LIMIT && |b.index| < U64_LIMIT
    requires SectionAt(b.index, b.header.fanoutOffset, Flatten(FanoutItems(t)), b.header.termsOffset)
    ensures Fanout(b, i) == Ok(t.fanout[i])
  {
    hide SectionAt;
    ItemRead(b.index, b.header.fanoutOffset, FanoutItems(t), 4, b.header.termsOffset, i);
    Widths();
    ReadField(b.index, b.header.fanoutOffset + i * 4, t.fanout[i], 4);
  }

  lemma FanoutsDecode(b: Bundle, t: Tables)
    requires |t.fanout| == FANOUT_LEN && |b.index| < U64_LIMIT
    requires forall i :: 0 <= i < FANOUT_LEN ==> t.fanout[i] < U32_LIMIT
    requires SectionAt(b.index, b.header.fanoutOffset, Flatten(FanoutItems(t)), b.header.termsOffset)
    ensures forall i :: 0 <= i < FANOUT_LEN ==> Fanout(b, i) == Ok(t.fanout[i])
  {
    hide SectionAt, Fanout;
    forall i | 0 <= i < FANOUT_LEN ensures Fanout(b, i) == Ok(t.fanout[i]) {
      FanoutDecodes(b, t, i);
    }
  }

  lemma DisplacementDecodes(b: Bundle, d: seq<int>, next: nat, i: nat)
    requires i < |d| == b.header.bucketCount && I32_MIN <= d[i] <= I32_MAX && |b.index| < U64_LIMIT
    requires SectionAt(b.index, b.header.bucketsOffset, Flatten(DisplacementItems(d)), next)
    ensures MphDisplacement(b, i) == Ok(d[i])
  {
    hide SectionAt;
    ItemRead(b.index, b.header.bucketsOffset, DisplacementItems(d), 4, next, i);
    DecodeEncodeI32(d[i]);
  }

  lemma DisplacementsDecode(b: Bundle, d: seq<int>, next: nat)
    requires |d| == b.header.bucketCount && |b.index| < U64_LIMIT
    requires forall i :: 0 <= i < |d| ==> I32_MIN <= d[i] <= I32_MAX
    requires SectionAt(b.index, b.header.bucketsOffset, Flatten(DisplacementItems(d)), next)
    ensures forall i :: 0 <= i < |d| ==> MphDisplacement(b, i) == Ok(d[i])
  {
    hide SectionAt, MphDisplacement;
    forall i | 0 <= i < |d| ensures MphDisplacement(b, i) == Ok(d[i]) {
      DisplacementDecodes(b, d, next, i);
    }
  }

  lemma TermDecodes(b: Bundle, terms: seq<TermEntry>, next: nat, i: nat)
    requires i < |terms| == b.header.termCount && FitsTerm(terms[i]) && |b.index| < U64_LIMIT
    requires SectionAt(b.index, b.header.termsOffset, Flatten(TermItems(terms)), next)
    ensures Term(b, i) == Ok(terms[i])
  {
    hide SectionAt;
    ItemRead(b.index, b.header.termsOffset, TermItems(terms), TERM_LEN, next, i);
    ParseTermEncoded(terms[i]);
  }

  lemma SlotDecodes(b: Bundle, slots: seq<TermEntry>, next: nat, i: nat)
    requires i < |slots| == b.header.termCount && FitsTerm(slots[i]) && |b.index| < U64_LIMIT
    requires SectionAt(b.index, b.header.slotsOffset, Flatten(TermItems(slots)), next)
    ensures MphTerm(b, i) == Ok(slots[i])
  {
    hide SectionAt;
    ItemRead(b.index, b.header.slotsOffset, TermItems(slots), TERM_LEN, next, i);
    ParseTermEncoded(slots[i]);
  }

  lemma RecordDecodes(b: Bundle, records: seq<RecordEntry>, next: nat, i: nat)
    requires i < |records| == b.header.recordCount && FitsRecord(records[i]) && |b.index| < U64_LIMIT
    requires SectionAt(b.index, b.header.recordsOffset, Flatten(RecordItems(records)), next)
    ensures Record(b, i) == Ok(records[i])
  {
    hide SectionAt;
    ItemRead(b.index, b.header.recordsOffset, RecordItems(records), RECORD_LEN, next, i);
    ParseRecordEncoded(records[i]);
  }

  lemma AudioDecodes(b: Bundle, audio: seq<AudioEntry>, next: nat, i: nat)
    requires i < |audio| == b.header.audioCount && FitsAudio(audio[i]) && |b.index| < U64_LIMIT
    requires SectionAt(b.index, b.header.audioOffset, Flatten(AudioItems(audio)), next)
    ensures Audio(b, i) == Ok(audio[i])
  {
    hide SectionAt;
    ItemRead(b.index, b.header.audioOffset, AudioItems(audio), AUDIO_LEN, next, i);
    ParseAudioEncoded(audio[i]);
  }

  lemma TermsDecode(b: Bundle, terms: seq<TermEntry>, next: nat)
    requires |terms| == b.header.termCount && |b.index| < U64_LIMIT
    requires forall i :: 0 <= i < |terms| ==> FitsTerm(terms[i])
    requires SectionAt(b.index, b.header.termsOffset, Flatten(TermItems(terms)), next)
    ensures forall i :: 0 <= i < |terms| ==> Term(b, i) == Ok(terms[i])
  {
    hide SectionAt, Term;
    forall i | 0 <= i < |terms| ensures Term(b, i) == Ok(terms[i]) {
      TermDecodes(b, terms, next, i);
    }
  }

  lemma SlotsDecode(b: Bundle, slots: seq<TermEntry>, next: nat)
    requires |slots| == b.header.termCount && |b.index| < U64_LIMIT
    requires forall i :: 0 <= i < |slots| ==> FitsTerm(slots[i])
    requires SectionAt(b.index, b.header.slotsOffset, Flatten(TermItems(slots)), next)
    ensures forall i :: 0 <= i < |slots| ==> MphTerm(b, i) == Ok(slots[i])
  {
    hide SectionAt, MphTerm;
    forall i | 0 <= i < |slots| ensures MphTerm(b, i) == Ok(slots[i]) {
      SlotDecodes(b, slots, next, i);
    }
  }

  lemma RecordsDecode(b: Bundle, records: seq<RecordEntry>, next: nat)
    requires |records| == b.header.recordCount && |b.index| < U64_LIMIT
    requires forall i :: 0 <= i < |records| ==> FitsRecord(records[i])
    requires SectionAt(b.index, b.header.recordsOffset, Flatten(RecordItems(records)), next)
    ensures forall i :: 0 <= i < |records| ==> Record(b, i) == Ok(records[i])
  {
    hide SectionAt, Record;
    forall i | 0 <= i < |records| ensures Record(b, i) == Ok(records[i]) {
      RecordDecodes(b, records, next, i);
    }
  }

  lemma AudiosDecode(b: Bundle, audio: seq<AudioEntry>, next: nat)
    requires |audio| == b.header.audioCount && |b.index| < U64_LIMIT
    requires forall i :: 0 <= i < |audio| ==> FitsAudio(audio[i])
    requires SectionAt(b.index, b.header.audioOffset, Flatten(AudioItems(audio)), next)
    ensures forall i :: 0 <= i < |audio| ==> Audio(b, i) == Ok(audio[i])
  {
    hide SectionAt, Audio;
    forall i | 0 <= i < |audio| ensures Audio(b, i) == Ok(audio[i]) {
      AudioDecodes(b, audio, next, i);
    }
  }

  lemma StringDecodes(b: Bundle, t: Tables, reference: StringRef, text: Text)
    requires b.header.stringsLen == |t.strings| && |b.index| < U64_LIMIT
    requires SectionAt(b.index, b.header.stringsOffset, t.strings, |b.index|)
    requires Readable(t.strings, reference, text)
    ensures String(b, reference) == Ok(text)
  {
    SubSlice(b.index, b.header.stringsOffset, |t.strings|, reference.offset, reference.len);
  }

  lemma StringsDecode(b: Bundle, t: Tables)
    requires b.header.stringsLen == |t.strings| && |b.index| < U64_LIMIT
    requires SectionAt(b.index, b.header.stringsOffset, t.strings, |b.index|)
    ensures forall reference, text :: Readable(t.strings, reference, text) ==> String(b, reference) == Ok(text)
    ensures forall reference, value :: OptionReadable(t.strings, reference, value)
              ==> OptionalString(b, reference) == Ok(value)
  {
    hide String, SectionAt;
    forall reference, text | Readable(t.strings, reference, text)
      ensures String(b, reference) == Ok(text)
    {
      StringDecodes(b, t, reference, text);
    }
  }

  lemma DescribedDecodes(b: Bundle, t: Tables)
    requires Fits(t) && Describes(b.header, t) && SectionsWritten(b.index, t, b.header)
    ensures Decodes(b, t)
  {
    hide SectionAt, Fanout, MphDisplacement, Term, MphTerm, Record, Audio, String;
    FanoutsDecode(b, t);
    DisplacementsDecode(b, t.displacements, b.header.slotsOffset);
    TermsDecode(b, t.terms, b.header.bucketsOffset);
    SlotsDecode(b, t.slots, b.header.recordsOffset);
    RecordsDecode(b, t.records, b.header.audioOffset);
    AudiosDecode(b, t.audio, b.header.stringsOffset);
    StringsDecode(b, t);
  }

  /** Layout round trip: opening a written file gives back every table, nulls and negatives included. */
  lemma WrittenDecodes(
    index: seq<byte>, t: Tables, checksum: seq<byte> -> seq<byte>, verify: bool,
    packLength: nat, sources: seq<Text>)
    requires Fits(t) && TotalLength(t) < U64_LIMIT && Written(index, t, checksum)
    ensures ParseHeader(index, verify, checksum).Ok?
    ensures Decodes(Bundle(index, ParseHeader(index, verify, checksum).value, packLength, sources), t)
  {
    ParseHeaderAccepts(index, t, verify, checksum);
    DescribedDecodes(Bundle(index, Place(t), packLength, sources), t);
  }
}
