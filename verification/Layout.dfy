/** `lookup.bin`: what `write_lookup` writes, and what the bundle's accessors read back. */
module Layout {
  import opened Wrappers
  import opened Text
  import opened LittleEndian
  import opened Strings

  const FORMAT_VERSION := 1
  const HEADER_LEN := 160
  const FANOUT_LEN := 65_537
  const TERM_LEN := 24
  const RECORD_LEN := 32
  const AUDIO_LEN := 40
  const CHECKSUM_OFFSET := 120
  const CHECKSUM_END := 152

  /** "YAFIDX1" and a NUL. */
  const MAGIC: seq<byte> := [89, 65, 70, 73, 68, 88, 49, 0]

  datatype TermEntry = TermEntry(hash: nat, text: StringRef, first: nat, count: nat)

  datatype RecordEntry = RecordEntry(
    reading: StringRef, speaker: StringRef, name: StringRef, audioId: nat, source: nat)

  datatype AudioEntry = AudioEntry(
    packOffset: nat, length: nat, path: StringRef, hashPrefix: nat, source: nat, mime: nat)

  /** Everything the compiler hands to `write_lookup`. */
  datatype Tables = Tables(
    fanout: seq<nat>,
    terms: seq<TermEntry>,
    displacements: seq<int>,
    slots: seq<TermEntry>,
    records: seq<RecordEntry>,
    audio: seq<AudioEntry>,
    strings: seq<byte>)

  datatype Header = Header(
    termCount: nat, recordCount: nat, audioCount: nat,
    fanoutOffset: nat, termsOffset: nat, recordsOffset: nat, audioOffset: nat,
    stringsOffset: nat, stringsLen: nat,
    bucketCount: nat, bucketsOffset: nat, slotsOffset: nat)

  /* ---- Values fit the field widths the Rust types give them. ---- */

  ghost predicate FitsTerm(t: TermEntry) {
    t.hash < U64_LIMIT && FitsRef(t.text) && t.first < U32_LIMIT && t.count < U32_LIMIT
  }

  ghost predicate FitsRecord(r: RecordEntry) {
    FitsRef(r.reading) && FitsRef(r.speaker) && FitsRef(r.name)
    && r.audioId < U32_LIMIT && r.source < U16_LIMIT
  }

  ghost predicate FitsAudio(a: AudioEntry) {
    a.packOffset < U64_LIMIT && a.length < U64_LIMIT && FitsRef(a.path)
    && a.hashPrefix < U64_LIMIT && a.source < U16_LIMIT && 1 <= a.mime <= 6
  }

  ghost predicate Fits(t: Tables) {
    && |t.fanout| == FANOUT_LEN
    && |t.slots| == |t.terms|
    && (forall i :: 0 <= i < |t.fanout| ==> t.fanout[i] < U32_LIMIT)
    && (forall i :: 0 <= i < |t.terms| ==> FitsTerm(t.terms[i]))
    && (forall i :: 0 <= i < |t.slots| ==> FitsTerm(t.slots[i]))
    && (forall i :: 0 <= i < |t.displacements| ==> I32_MIN <= t.displacements[i] <= I32_MAX)
    && (forall i :: 0 <= i < |t.records| ==> FitsRecord(t.records[i]))
    && (forall i :: 0 <= i < |t.audio| ==> FitsAudio(t.audio[i]))
  }

  /* ---- Item encodings. ---- */

  function EncodeTerm(t: TermEntry): (b: seq<byte>)
    ensures |b| == TERM_LEN
  {
    Encode(t.hash, 8) + Encode(t.text.offset, 4) + Encode(t.text.len, 4)
    + Encode(t.first, 4) + Encode(t.count, 4)
  }

  function EncodeRecord(r: RecordEntry): (b: seq<byte>)
    ensures |b| == RECORD_LEN
  {
    Encode(r.reading.offset, 4) + Encode(r.reading.len, 4)
    + Encode(r.speaker.offset, 4) + Encode(r.speaker.len, 4)
    + Encode(r.name.offset, 4) + Encode(r.name.len, 4)
    + Encode(r.audioId, 4) + Encode(r.source, 2) + Encode(0, 2)
  }

  function EncodeAudio(a: AudioEntry): (b: seq<byte>)
    ensures |b| == AUDIO_LEN
  {
    Encode(a.packOffset, 8) + Encode(a.length, 8)
    + Encode(a.path.offset, 4) + Encode(a.path.len, 4)
    + Encode(a.hashPrefix, 8) + Encode(a.source, 2) + [a.mime % 256] + Zeros(5)
  }

  function Zeros(n: nat): (z: seq<byte>)
    ensures |z| == n
  {
    seq(n, _ => 0)
  }

  function FanoutItems(t: Tables): (items: seq<seq<byte>>)
    ensures |items| == |t.fanout| && AllWidth(items, 4)
  {
    seq(|t.fanout|, i requires 0 <= i < |t.fanout| => Encode(t.fanout[i], 4))
  }

  function TermItems(terms: seq<TermEntry>): (items: seq<seq<byte>>)
    ensures |items| == |terms| && AllWidth(items, TERM_LEN)
  {
    seq(|terms|, i requires 0 <= i < |terms| => EncodeTerm(terms[i]))
  }

  function DisplacementItems(displacements: seq<int>): (items: seq<seq<byte>>)
    ensures |items| == |displacements| && AllWidth(items, 4)
  {
    seq(|displacements|, i requires 0 <= i < |displacements| =>
      if I32_MIN <= displacements[i] <= I32_MAX then EncodeI32(displacements[i]) else Zeros(4))
  }

  function RecordItems(records: seq<RecordEntry>): (items: seq<seq<byte>>)
    ensures |items| == |records| && AllWidth(items, RECORD_LEN)
  {
    seq(|records|, i requires 0 <= i < |records| => EncodeRecord(records[i]))
  }

  function AudioItems(audio: seq<AudioEntry>): (items: seq<seq<byte>>)
    ensures |items| == |audio| && AllWidth(items, AUDIO_LEN)
  {
    seq(|audio|, i requires 0 <= i < |audio| => EncodeAudio(audio[i]))
  }

  /* ---- Section placement. ---- */

  function Align8(value: nat): (r: nat)
    ensures value <= r < value + 8 && r % 8 == 0
  {
    (value + 7) / 8 * 8
  }

  /** Sections follow each other without overlap, in the order of the file. */
  ghost predicate Spaced(h: Header, t: Tables) {
    && h.fanoutOffset == HEADER_LEN
    && h.fanoutOffset + |t.fanout| * 4 <= h.termsOffset
    && h.termsOffset + |t.terms| * TERM_LEN <= h.bucketsOffset
    && h.bucketsOffset + |t.displacements| * 4 <= h.slotsOffset
    && h.slotsOffset + |t.slots| * TERM_LEN <= h.recordsOffset
    && h.recordsOffset + |t.records| * RECORD_LEN <= h.audioOffset
    && h.audioOffset + |t.audio| * AUDIO_LEN <= h.stringsOffset
  }

  /** The header `write_lookup` computes. */
  function Place(t: Tables): (h: Header)
    ensures Spaced(h, t)
  {
    var terms := Align8(HEADER_LEN + |t.fanout| * 4);
    var buckets := Align8(terms + |t.terms| * TERM_LEN);
    var slots := Align8(buckets + |t.displacements| * 4);
    var records := Align8(slots + |t.slots| * TERM_LEN);
    var audio := Align8(records + |t.records| * RECORD_LEN);
    var strings := Align8(audio + |t.audio| * AUDIO_LEN);
    Header(|t.terms|, |t.records|, |t.audio|,
           HEADER_LEN, terms, records, audio, strings, |t.strings|,
           |t.displacements|, buckets, slots)
  }

  function TotalLength(t: Tables): nat {
    Place(t).stringsOffset + |t.strings|
  }

  /** Content of a file section: `data` at `offset`, then zeros up to the next section. */
  ghost predicate SectionAt(bytes: seq<byte>, offset: nat, data: seq<byte>, next: nat) {
    && offset + |data| <= next <= |bytes|
    && bytes[offset..offset + |data|] == data
    && (forall i :: offset + |data| <= i < next ==> bytes[i] == 0)
  }

  ghost predicate FieldAt(bytes: seq<byte>, offset: nat, value: nat, width: nat) {
    offset + width <= |bytes| && bytes[offset..offset + width] == Encode(value, width)
  }

  ghost predicate HeaderWritten(bytes: seq<byte>, h: Header) {
    && |bytes| >= HEADER_LEN
    && bytes[0..8] == MAGIC
    && FieldAt(bytes, 8, FORMAT_VERSION, 4)
    && FieldAt(bytes, 12, HEADER_LEN, 4)
    && FieldAt(bytes, 16, h.termCount, 8)
    && FieldAt(bytes, 24, h.recordCount, 8)
    && FieldAt(bytes, 32, h.audioCount, 8)
    && FieldAt(bytes, 40, h.fanoutOffset, 8)
    && FieldAt(bytes, 48, h.termsOffset, 8)
    && FieldAt(bytes, 56, h.recordsOffset, 8)
    && FieldAt(bytes, 64, h.audioOffset, 8)
    && FieldAt(bytes, 72, h.stringsOffset, 8)
    && FieldAt(bytes, 80, h.stringsLen, 8)
    && FieldAt(bytes, 88, h.bucketCount, 8)
    && FieldAt(bytes, 96, h.bucketsOffset, 8)
    && FieldAt(bytes, 104, h.slotsOffset, 8)
  }

  ghost predicate SectionsWritten(bytes: seq<byte>, t: Tables, h: Header) {
    && |bytes| == h.stringsOffset + |t.strings|
    && SectionAt(bytes, h.fanoutOffset, Flatten(FanoutItems(t)), h.termsOffset)
    && SectionAt(bytes, h.termsOffset, Flatten(TermItems(t.terms)), h.bucketsOffset)
    && SectionAt(bytes, h.bucketsOffset, Flatten(DisplacementItems(t.displacements)), h.slotsOffset)
    && SectionAt(bytes, h.slotsOffset, Flatten(TermItems(t.slots)), h.recordsOffset)
    && SectionAt(bytes, h.recordsOffset, Flatten(RecordItems(t.records)), h.audioOffset)
    && SectionAt(bytes, h.audioOffset, Flatten(AudioItems(t.audio)), h.stringsOffset)
    && SectionAt(bytes, h.stringsOffset, t.strings, |bytes|)
  }

  ghost predicate WrittenAs(bytes: seq<byte>, t: Tables, h: Header, checksum: seq<byte> -> seq<byte>) {
    && HeaderWritten(bytes, h)
    && SectionsWritten(bytes, t, h)
    && (forall i :: 112 <= i < CHECKSUM_OFFSET || CHECKSUM_END <= i < HEADER_LEN ==> bytes[i] == 0)
    && bytes[CHECKSUM_OFFSET..CHECKSUM_END] == checksum(bytes[HEADER_LEN..])
  }

  /** `bytes` is the file `write_lookup` produces for `t`; `checksum` is BLAKE3. */
  ghost predicate Written(bytes: seq<byte>, t: Tables, checksum: seq<byte> -> seq<byte>) {
    WrittenAs(bytes, t, Place(t), checksum)
  }

  /* ---- Writing. ---- */

  function Splice(bytes: seq<byte>, at: nat, data: seq<byte>): (r: seq<byte>)
    requires at + |data| <= |bytes|
    ensures |r| == |bytes|
  {
    bytes[..at] + data + bytes[at + |data|..]
  }

  /** `copy_from_slice` into a window of the output; everything outside the window is kept. */
  method CopyInto(output: array<byte>, at: nat, data: seq<byte>)
    requires at + |data| <= output.Length
    modifies output
    ensures output[..] == Splice(old(output[..]), at, data)
    ensures output[at..at + |data|] == data
    ensures forall i :: 0 <= i < output.Length && (i < at || at + |data| <= i)
              ==> output[i] == old(output[i])
    ensures forall lo, hi :: 0 <= lo <= hi <= output.Length && (hi <= at || at + |data| <= lo)
              ==> output[lo..hi] == old(output[lo..hi])
  {
    var i := 0;
    while i < |data|
      invariant 0 <= i <= |data|
      invariant output[at..at + i] == data[..i]
      invariant forall k :: 0 <= k < output.Length && (k < at || at + i <= k)
                  ==> output[k] == old(output[k])
    {
      output[at + i] := data[i];
      i := i + 1;
      assert output[at..at + i] == output[at..at + i - 1] + [data[i - 1]];
    }
  }

  /** `write_u32` and `write_u64` into the header. */
  method WriteField(output: array<byte>, at: nat, value: nat, width: nat)
    requires at + width <= output.Length
    modifies output
    ensures output[at..at + width] == Encode(value, width)
    ensures forall lo, hi :: 0 <= lo <= hi <= output.Length && (hi <= at || at + width <= lo)
              ==> output[lo..hi] == old(output[lo..hi])
  {
    CopyInto(output, at, Encode(value, width));
  }

  method WriteCounts(output: array<byte>, h: Header)
    requires output.Length >= HEADER_LEN
    modifies output
    ensures output[0..8] == MAGIC
    ensures output[8..12] == Encode(FORMAT_VERSION, 4)
    ensures output[12..16] == Encode(HEADER_LEN, 4)
    ensures output[16..24] == Encode(h.termCount, 8)
    ensures output[24..32] == Encode(h.recordCount, 8)
    ensures output[32..40] == Encode(h.audioCount, 8)
    ensures output[112..] == old(output[112..])
  {
    CopyInto(output, 0, MAGIC);
    WriteField(output, 8, FORMAT_VERSION, 4);
    WriteField(output, 12, HEADER_LEN, 4);
    WriteField(output, 16, h.termCount, 8);
    WriteField(output, 24, h.recordCount, 8);
    WriteField(output, 32, h.audioCount, 8);
    assert output[112..] == output[112..output.Length];
  }

  method WriteHeader(output: array<byte>, h: Header)
    requires output.Length >= HEADER_LEN
    modifies output
    ensures HeaderWritten(output[..], h)
    ensures output[..][112..] == old(output[..])[112..]
  {
    ghost var start := output[..];
    WriteCounts(output, h);
    WriteOffsets(output, h);
    assert output[112..] == output[112..output.Length];
    ghost var b := output[..];
    assert b[112..] == output[112..] == start[112..];
    assert b[0..8] == output[0..8];
    assert b[8..12] == output[8..12];
    assert b[12..16] == output[12..16];
    assert b[16..24] == output[16..24];
    assert b[24..32] == output[24..32];
    assert b[32..40] == output[32..40];
  }

  method WriteOffsets(output: array<byte>, h: Header)
    requires output.Length >= HEADER_LEN
    modifies output
    ensures FieldAt(output[..], 40, h.fanoutOffset, 8)
    ensures FieldAt(output[..], 48, h.termsOffset, 8)
    ensures FieldAt(output[..], 56, h.recordsOffset, 8)
    ensures FieldAt(output[..], 64, h.audioOffset, 8)
    ensures FieldAt(output[..], 72, h.stringsOffset, 8)
    ensures FieldAt(output[..], 80, h.stringsLen, 8)
    ensures FieldAt(output[..], 88, h.bucketCount, 8)
    ensures FieldAt(output[..], 96, h.bucketsOffset, 8)
    ensures FieldAt(output[..], 104, h.slotsOffset, 8)
    ensures forall lo, hi :: 0 <= lo <= hi <= output.Length && (hi <= 40 || 112 <= lo)
              ==> output[lo..hi] == old(output[lo..hi])
  {
    WriteField(output, 40, h.fanoutOffset, 8);
    WriteField(output, 48, h.termsOffset, 8);
    WriteField(output, 56, h.recordsOffset, 8);
    WriteField(output, 64, h.audioOffset, 8);
    WriteField(output, 72, h.stringsOffset, 8);
    WriteField(output, 80, h.stringsLen, 8);
    WriteField(output, 88, h.bucketCount, 8);
    WriteField(output, 96, h.bucketsOffset, 8);
    WriteField(output, 104, h.slotsOffset, 8);
    ghost var b := output[..];
    assert b[40..48] == output[40..48];
    assert b[48..56] == output[48..56];
    assert b[56..64] == output[56..64];
    assert b[64..72] == output[64..72];
    assert b[72..80] == output[72..80];
    assert b[80..88] == output[80..88];
    assert b[88..96] == output[88..96];
    assert b[96..104] == output[96..104];
    assert b[104..112] == output[104..112];
  }

  /** One table: the cursor walks over equal-width items. */
  method WriteTable(output: array<byte>, at: nat, items: seq<seq<byte>>)
    requires at + |Flatten(items)| <= output.Length
    modifies output
    ensures output[at..at + |Flatten(items)|] == Flatten(items)
    ensures output[..at] == old(output[..at])
    ensures output[at + |Flatten(items)|..] == old(output[at + |Flatten(items)|..])
  {
    var cursor := at;
    var i := 0;
    while i < |items|
      invariant 0 <= i <= |items|
      invariant cursor == at + |Flatten(items[..i])| <= output.Length
      invariant output[at..cursor] == Flatten(items[..i])
      invariant output[..at] == old(output[..at])
      invariant output[cursor..] == old(output[cursor..])
    {
      FlattenAppend(items[..i], items[i]);
      assert items[..i + 1] == items[..i] + [items[i]];
      FlattenConcat(items[..i + 1], items[i + 1..]);
      assert items == items[..i + 1] + items[i + 1..];
      var next := cursor + |items[i]|;
      ghost var before := output[..];
      CopyInto(output, cursor, items[i]);
      assert output[at..next] == output[at..cursor] + output[cursor..next];
      assert output[..at] == output[0..at];
      assert output[next..] == output[next..output.Length];
      assert before[next..] == before[cursor..][|items[i]|..];
      cursor := next;
      i := i + 1;
    }
    assert items[..i] == items;
  }

  ghost predicate ZeroFrom(bytes: seq<byte>, from: nat) {
    forall i :: from <= i < |bytes| ==> bytes[i] == 0
  }

  /** A section of a fresh buffer: the table, then the zeros that are already there. */
  method WriteSection(output: array<byte>, offset: nat, items: seq<seq<byte>>, next: nat)
    requires offset + |Flatten(items)| <= next <= output.Length
    requires ZeroFrom(output[..], offset)
    modifies output
    ensures SectionAt(output[..], offset, Flatten(items), next)
    ensures output[..][..offset] == old(output[..])[..offset]
    ensures ZeroFrom(output[..], next)
  {
    ghost var data := Flatten(items);
    ghost var before := output[..];
    WriteTable(output, offset, items);
    assert output[..][..offset] == output[..offset] == before[..offset];
    assert output[..][offset..offset + |data|] == output[offset..offset + |data|];
    forall i | offset + |data| <= i < output.Length ensures output[..][i] == 0 {
      assert output[i] == output[offset + |data|..][i - offset - |data|];
    }
  }

  lemma SectionKept(before: seq<byte>, after: seq<byte>, offset: nat, data: seq<byte>, next: nat)
    requires SectionAt(before, offset, data, next)
    requires |before| == |after| && after[..next] == before[..next]
    ensures SectionAt(after, offset, data, next)
  {
    assert after[offset..offset + |data|] == after[..next][offset..offset + |data|];
    forall i | offset + |data| <= i < next ensures after[i] == 0 {
      assert after[i] == after[..next][i];
    }
  }

  /** The first four sections: fanout, sorted terms, displacements, hash slots. */
  method WriteIndexSections(output: array<byte>, t: Tables, h: Header)
    requires Spaced(h, t) && output.Length == h.stringsOffset + |t.strings|
    requires ZeroFrom(output[..], HEADER_LEN)
    modifies output
    ensures SectionAt(output[..], h.fanoutOffset, Flatten(FanoutItems(t)), h.termsOffset)
    ensures SectionAt(output[..], h.termsOffset, Flatten(TermItems(t.terms)), h.bucketsOffset)
    ensures SectionAt(output[..], h.bucketsOffset,
                      Flatten(DisplacementItems(t.displacements)), h.slotsOffset)
    ensures SectionAt(output[..], h.slotsOffset, Flatten(TermItems(t.slots)), h.recordsOffset)
    ensures output[..][..HEADER_LEN] == old(output[..])[..HEADER_LEN]
    ensures ZeroFrom(output[..], h.recordsOffset)
  {
    FlattenLength(FanoutItems(t), 4);
    FlattenLength(TermItems(t.terms), TERM_LEN);
    FlattenLength(DisplacementItems(t.displacements), 4);
    FlattenLength(TermItems(t.slots), TERM_LEN);
    WriteSection(output, h.fanoutOffset, FanoutItems(t), h.termsOffset);
    ghost var b1 := output[..];
    WriteSection(output, h.termsOffset, TermItems(t.terms), h.bucketsOffset);
    ghost var b2 := output[..];
    WriteSection(output, h.bucketsOffset, DisplacementItems(t.displacements), h.slotsOffset);
    ghost var b3 := output[..];
    WriteSection(output, h.slotsOffset, TermItems(t.slots), h.recordsOffset);
    ghost var b4 := output[..];
    KeepThrough(b1, b2, b3, b4, t, h);
  }

  lemma KeepThrough(b1: seq<byte>, b2: seq<byte>, b3: seq<byte>, b4: seq<byte>, t: Tables, h: Header)
    requires |b1| == |b2| == |b3| == |b4| == h.stringsOffset + |t.strings| && Spaced(h, t)
    requires b2[..h.termsOffset] == b1[..h.termsOffset]
    requires b3[..h.bucketsOffset] == b2[..h.bucketsOffset]
    requires b4[..h.slotsOffset] == b3[..h.slotsOffset]
    requires SectionAt(b1, h.fanoutOffset, Flatten(FanoutItems(t)), h.termsOffset)
    requires SectionAt(b2, h.termsOffset, Flatten(TermItems(t.terms)), h.bucketsOffset)
    requires SectionAt(b3, h.bucketsOffset,
                       Flatten(DisplacementItems(t.displacements)), h.slotsOffset)
    ensures b4[..HEADER_LEN] == b1[..HEADER_LEN]
    ensures SectionAt(b4, h.fanoutOffset, Flatten(FanoutItems(t)), h.termsOffset)
    ensures SectionAt(b4, h.termsOffset, Flatten(TermItems(t.terms)), h.bucketsOffset)
    ensures SectionAt(b4, h.bucketsOffset,
                      Flatten(DisplacementItems(t.displacements)), h.slotsOffset)
  {
    PrefixShorter(b3, b4, h.slotsOffset, h.bucketsOffset);
    PrefixShorter(b3, b4, h.slotsOffset, h.termsOffset);
    PrefixShorter(b2, b3, h.bucketsOffset, h.termsOffset);
    PrefixShorter(b1, b4, h.termsOffset, HEADER_LEN);
    SectionKept(b1, b4, h.fanoutOffset, Flatten(FanoutItems(t)), h.termsOffset);
    SectionKept(b2, b4, h.termsOffset, Flatten(TermItems(t.terms)), h.bucketsOffset);
    SectionKept(b3, b4, h.bucketsOffset, Flatten(DisplacementItems(t.displacements)), h.slotsOffset);
  }

  lemma PrefixShorter(a: seq<byte>, b: seq<byte>, n: nat, m: nat)
    requires m <= n <= |a| && n <= |b| && a[..n] == b[..n]
    ensures a[..m] == b[..m]
  {
    assert a[..m] == a[..n][..m] == b[..n][..m] == b[..m];
  }

  /** The last three: records, audio, strings. */
  method WriteDataSections(output: array<byte>, t: Tables, h: Header)
    requires Spaced(h, t) && output.Length == h.stringsOffset + |t.strings|
    requires ZeroFrom(output[..], h.recordsOffset)
    modifies output
    ensures SectionAt(output[..], h.recordsOffset, Flatten(RecordItems(t.records)), h.audioOffset)
    ensures SectionAt(output[..], h.audioOffset, Flatten(AudioItems(t.audio)), h.stringsOffset)
    ensures SectionAt(output[..], h.stringsOffset, t.strings, output.Length)
    ensures output[..][..h.recordsOffset] == old(output[..])[..h.recordsOffset]
  {
    FlattenLength(RecordItems(t.records), RECORD_LEN);
    FlattenLength(AudioItems(t.audio), AUDIO_LEN);
    WriteSection(output, h.recordsOffset, RecordItems(t.records), h.audioOffset);
    ghost var b1 := output[..];
    WriteSection(output, h.audioOffset, AudioItems(t.audio), h.stringsOffset);
    ghost var b2 := output[..];
    CopyInto(output, h.stringsOffset, t.strings);
    ghost var b3 := output[..];
    assert b3[h.stringsOffset..] == t.strings;
    assert b3[..h.stringsOffset] == b2[..h.stringsOffset];
    assert b2[..h.audioOffset] == b1[..h.audioOffset];
    PrefixShorter(b2, b3, h.stringsOffset, h.audioOffset);
    PrefixShorter(b1, b3, h.audioOffset, h.recordsOffset);
    SectionKept(b1, b3, h.recordsOffset, Flatten(RecordItems(t.records)), h.audioOffset);
    SectionKept(b2, b3, h.audioOffset, Flatten(AudioItems(t.audio)), h.stringsOffset);
  }

  lemma PrefixSlice(a: seq<byte>, b: seq<byte>, n: nat, lo: nat, hi: nat)
    requires lo <= hi <= n <= |a| && n <= |b| && a[..n] == b[..n]
    ensures a[lo..hi] == b[lo..hi]
  {
    assert a[..n][lo..hi] == a[lo..hi];
    assert b[..n][lo..hi] == b[lo..hi];
  }

  lemma HeaderKept(before: seq<byte>, after: seq<byte>, h: Header)
    requires HeaderWritten(before, h)
    requires |after| == |before| && after[..112] == before[..112]
    ensures HeaderWritten(after, h)
  {
    forall lo, hi | 0 <= lo <= hi <= 112 ensures after[lo..hi] == before[lo..hi] {
      PrefixSlice(after, before, 112, lo, hi);
    }
  }

  lemma SectionMoved(before: seq<byte>, after: seq<byte>, offset: nat, data: seq<byte>, next: nat)
    requires SectionAt(before, offset, data, next) && offset >= HEADER_LEN
    requires |after| == |before| && after[HEADER_LEN..] == before[HEADER_LEN..]
    ensures SectionAt(after, offset, data, next)
  {
    var n := offset + |data|;
    assert after[offset..n] == after[HEADER_LEN..][offset - HEADER_LEN..n - HEADER_LEN];
    assert before[offset..n] == before[HEADER_LEN..][offset - HEADER_LEN..n - HEADER_LEN];
    forall i | n <= i < next ensures after[i] == 0 {
      assert after[i] == after[HEADER_LEN..][i - HEADER_LEN];
    }
  }

  lemma SectionsKept(before: seq<byte>, after: seq<byte>, t: Tables, h: Header)
    requires SectionsWritten(before, t, h) && Spaced(h, t)
    requires |after| == |before| && after[HEADER_LEN..] == before[HEADER_LEN..]
    ensures SectionsWritten(after, t, h)
  {
    SectionMoved(before, after, h.fanoutOffset, Flatten(FanoutItems(t)), h.termsOffset);
    SectionMoved(before, after, h.termsOffset, Flatten(TermItems(t.terms)), h.bucketsOffset);
    SectionMoved(before, after, h.bucketsOffset, Flatten(DisplacementItems(t.displacements)), h.slotsOffset);
    SectionMoved(before, after, h.slotsOffset, Flatten(TermItems(t.slots)), h.recordsOffset);
    SectionMoved(before, after, h.recordsOffset, Flatten(RecordItems(t.records)), h.audioOffset);
    SectionMoved(before, after, h.audioOffset, Flatten(AudioItems(t.audio)), h.stringsOffset);
    SectionMoved(before, after, h.stringsOffset, t.strings, |before|);
  }

  lemma Assembled(b1: seq<byte>, b2: seq<byte>, b3: seq<byte>, t: Tables, h: Header)
    requires |b1| == |b2| == |b3| == h.stringsOffset + |t.strings| && Spaced(h, t)
    requires HeaderWritten(b1, h) && ZeroFrom(b1, 112)
    requires b2[..HEADER_LEN] == b1[..HEADER_LEN]
    requires b3[..h.recordsOffset] == b2[..h.recordsOffset]
    requires SectionAt(b2, h.fanoutOffset, Flatten(FanoutItems(t)), h.termsOffset)
    requires SectionAt(b2, h.termsOffset, Flatten(TermItems(t.terms)), h.bucketsOffset)
    requires SectionAt(b2, h.bucketsOffset,
                       Flatten(DisplacementItems(t.displacements)), h.slotsOffset)
    requires SectionAt(b2, h.slotsOffset, Flatten(TermItems(t.slots)), h.recordsOffset)
    requires SectionAt(b3, h.recordsOffset, Flatten(RecordItems(t.records)), h.audioOffset)
    requires SectionAt(b3, h.audioOffset, Flatten(AudioItems(t.audio)), h.stringsOffset)
    requires SectionAt(b3, h.stringsOffset, t.strings, |b3|)
    ensures HeaderWritten(b3, h) && SectionsWritten(b3, t, h)
    ensures forall i :: 112 <= i < HEADER_LEN ==> b3[i] == 0
  {
    PrefixShorter(b2, b3, h.recordsOffset, HEADER_LEN);
    PrefixShorter(b1, b3, HEADER_LEN, 112);
    HeaderKept(b1, b3, h);
    PrefixShorter(b2, b3, h.recordsOffset, h.termsOffset);
    PrefixShorter(b2, b3, h.recordsOffset, h.bucketsOffset);
    PrefixShorter(b2, b3, h.recordsOffset, h.slotsOffset);
    SectionKept(b2, b3, h.fanoutOffset, Flatten(FanoutItems(t)), h.termsOffset);
    SectionKept(b2, b3, h.termsOffset, Flatten(TermItems(t.terms)), h.bucketsOffset);
    SectionKept(b2, b3, h.bucketsOffset, Flatten(DisplacementItems(t.displacements)), h.slotsOffset);
    SectionKept(b2, b3, h.slotsOffset, Flatten(TermItems(t.slots)), h.recordsOffset);
    forall i | 112 <= i < HEADER_LEN ensures b3[i] == 0 {
      assert b3[i] == b3[..HEADER_LEN][i] == b1[..HEADER_LEN][i];
    }
  }

  method WriteTables(output: array<byte>, t: Tables, h: Header)
    requires Spaced(h, t) && output.Length == h.stringsOffset + |t.strings|
    requires ZeroFrom(output[..], 0)
    modifies output
    ensures HeaderWritten(output[..], h) && SectionsWritten(output[..], t, h)
    ensures forall i :: 112 <= i < HEADER_LEN ==> output[..][i] == 0
  {
    ghost var b0 := output[..];
    WriteHeader(output, h);
    ghost var b1 := output[..];
    ZeroKept(b0, b1);
    WriteIndexSections(output, t, h);
    ghost var b2 := output[..];
    WriteDataSections(output, t, h);
    ghost var b3 := output[..];
    Assembled(b1, b2, b3, t, h);
  }

  lemma ZeroKept(b0: seq<byte>, b1: seq<byte>)
    requires |b0| == |b1| >= HEADER_LEN && ZeroFrom(b0, 0) && b1[112..] == b0[112..]
    ensures ZeroFrom(b1, 112)
  {
    forall i | 112 <= i < |b1| ensures b1[i] == 0 {
      assert b1[i] == b1[112..][i - 112];
    }
  }

  lemma SpliceParts(bytes: seq<byte>, at: nat, data: seq<byte>)
    requires at + |data| <= |bytes| && at == CHECKSUM_OFFSET && at + |data| == CHECKSUM_END
    requires |bytes| >= HEADER_LEN
    ensures var after := Splice(bytes, at, data);
            && after[..at] == bytes[..at]
            && after[at..at + |data|] == data
            && after[HEADER_LEN..] == bytes[HEADER_LEN..]
            && (forall i :: 0 <= i < |bytes| && (i < at || at + |data| <= i) ==> after[i] == bytes[i])
  {
    assert Splice(bytes, at, data)[HEADER_LEN..] == bytes[HEADER_LEN..];
  }

  lemma ChecksumSpliced(before: seq<byte>, t: Tables, h: Header, sum: seq<byte>)
    requires Spaced(h, t) && HeaderWritten(before, h) && SectionsWritten(before, t, h)
    requires forall i :: 112 <= i < HEADER_LEN ==> before[i] == 0
    requires |sum| == CHECKSUM_END - CHECKSUM_OFFSET
    ensures var after := Splice(before, CHECKSUM_OFFSET, sum);
            && HeaderWritten(after, h) && SectionsWritten(after, t, h)
            && (forall i :: 112 <= i < CHECKSUM_OFFSET || CHECKSUM_END <= i < HEADER_LEN ==> after[i] == 0)
            && after[CHECKSUM_OFFSET..CHECKSUM_END] == sum
            && after[HEADER_LEN..] == before[HEADER_LEN..]
  {
    var after := Splice(before, CHECKSUM_OFFSET, sum);
    hide HeaderWritten, SectionsWritten, Splice;
    SpliceParts(before, CHECKSUM_OFFSET, sum);
    PrefixShorter(before, after, CHECKSUM_OFFSET, 112);
    HeaderKept(before, after, h);
    SectionsKept(before, after, t, h);
  }

  method Render(t: Tables, h: Header, checksum: seq<byte> -> seq<byte>) returns (bytes: seq<byte>)
    requires Spaced(h, t)
    requires forall payload :: |checksum(payload)| == CHECKSUM_END - CHECKSUM_OFFSET
    ensures WrittenAs(bytes, t, h, checksum)
  {
    hide HeaderWritten, SectionsWritten;
    var output := new byte[h.stringsOffset + |t.strings|](_ => 0);
    WriteTables(output, t, h);
    ghost var before := output[..];
    var sum := checksum(output[HEADER_LEN..]);
    assert output[HEADER_LEN..] == before[HEADER_LEN..];
    CopyInto(output, CHECKSUM_OFFSET, sum);
    bytes := output[..];
    assert bytes == Splice(before, CHECKSUM_OFFSET, sum);
    ChecksumSpliced(before, t, h, sum);
  }

  /** `write_lookup`: the only refusals are a fanout of the wrong width and a file over 2^64 bytes. */
  method WriteLookup(t: Tables, checksum: seq<byte> -> seq<byte>) returns (r: Result<seq<byte>>)
    requires |t.slots| == |t.terms|
    requires forall payload :: |checksum(payload)| == CHECKSUM_END - CHECKSUM_OFFSET
    ensures r.Ok? <==> |t.fanout| == FANOUT_LEN && TotalLength(t) < U64_LIMIT
    ensures r.Ok? ==> Written(r.value, t, checksum)
  {
    if |t.fanout| != FANOUT_LEN {
      return Err("fanout width mismatch");
    }
    if TotalLength(t) >= U64_LIMIT {
      return Err("lookup file size overflow");
    }
    var bytes := Render(t, Place(t), checksum);
    return Ok(bytes);
  }
}
