/** `validate_structure`: the check that runs once, before any query touches the index. */
module Structure {
  import opened Wrappers
  import opened Text
  import opened LittleEndian
  import opened Strings
  import opened Layout
  import opened Bundle
  import opened Mph
  import opened Lookup

  function CheckRange(e: TermEntry, recordCount: nat): Result<()> {
    Ensure(e.first <= recordCount && e.count <= recordCount - e.first, "term record range is invalid")
  }

  /** A sorted term: readable, in range, and found again by the perfect hash. */
  function CheckTerm(b: Bundle, i: nat, hash: Hash, seeded: Seeded): Result<TermEntry> {
    var term :- Term(b, i);
    var key :- String(b, term.text);
    var _ :- CheckRange(term, b.header.recordCount);
    var found :- LookupTermMph(b, key, hash, seeded);
    if found.None? then Err("MPH does not resolve compiled key")
    else
      var other :- String(b, found.value.text);
      var _ :- Ensure(
        found.value.first == term.first && found.value.count == term.count && other == key,
        "MPH and sorted index disagree");
      Ok(term)
  }

  function CheckSlot(b: Bundle, i: nat): Result<TermEntry> {
    var term :- MphTerm(b, i);
    var _ :- String(b, term.text);
    var _ :- CheckRange(term, b.header.recordCount);
    Ok(term)
  }

  function CheckRecord(b: Bundle, i: nat): Result<RecordEntry> {
    var record :- Record(b, i);
    var _ :- Ensure(record.audioId < b.header.audioCount, "record audio ID is invalid");
    var _ :- Ensure(record.source < |b.sources|, "record source is invalid");
    var _ :- OptionalString(b, record.reading);
    var _ :- OptionalString(b, record.speaker);
    var _ :- String(b, record.name);
    Ok(record)
  }

  function CheckAudio(b: Bundle, i: nat): Result<AudioEntry> {
    var audio :- Audio(b, i);
    var _ :- Ensure(audio.source < |b.sources|, "audio source is invalid");
    var _ :- String(b, audio.path);
    var _ :- Ensure(audio.packOffset + audio.length < U64_LIMIT, "audio pack range overflow");
    var _ :- Ensure(audio.packOffset + audio.length <= b.packLength, "audio pack range is invalid");
    Ok(audio)
  }

  ghost predicate ValidFanout(b: Bundle) {
    && Fanout(b, 0) == Ok(0)
    && Fanout(b, FANOUT_LEN - 1) == Ok(b.header.termCount)
    && (b.header.bucketCount > 0 || b.header.termCount == 0)
    && (forall i :: 0 <= i < FANOUT_LEN ==> Fanout(b, i).Ok? && Fanout(b, i).value <= b.header.termCount)
    && (forall i :: 0 < i < FANOUT_LEN ==> Fanout(b, i - 1).value <= Fanout(b, i).value)
  }

  ghost predicate ValidTerms(b: Bundle, hash: Hash, seeded: Seeded, n: nat) {
    && (forall i :: 0 <= i < n ==> CheckTerm(b, i, hash, seeded).Ok?)
    && (forall i :: 0 < i < n ==>
          CheckTerm(b, i - 1, hash, seeded).value.hash <= CheckTerm(b, i, hash, seeded).value.hash)
  }

  ghost predicate ValidStructure(b: Bundle, hash: Hash, seeded: Seeded) {
    && ValidFanout(b)
    && ValidTerms(b, hash, seeded, b.header.termCount)
    && (forall i :: 0 <= i < b.header.termCount ==> CheckSlot(b, i).Ok?)
    && (forall i :: 0 <= i < b.header.recordCount ==> CheckRecord(b, i).Ok?)
    && (forall i :: 0 <= i < b.header.audioCount ==> CheckAudio(b, i).Ok?)
  }

  method ValidateFanout(b: Bundle) returns (r: Result<()>)
    ensures r.Ok? <==> ValidFanout(b)
  {
    hide Fanout;
    var first :- Fanout(b, 0);
    if first != 0 {
      return Err("fanout must begin at zero");
    }
    var last :- Fanout(b, FANOUT_LEN - 1);
    if last != b.header.termCount {
      return Err("fanout must end at term count");
    }
    if !(b.header.bucketCount > 0 || b.header.termCount == 0) {
      return Err("MPH bucket table is empty");
    }
    var prior := 0;
    var index := 0;
    while index < FANOUT_LEN
      invariant 0 <= index <= FANOUT_LEN
      invariant forall i :: 0 <= i < index ==> Fanout(b, i).Ok? && Fanout(b, i).value <= b.header.termCount
      invariant forall i :: 0 < i < index ==> Fanout(b, i - 1).value <= Fanout(b, i).value
      invariant prior == if index == 0 then 0 else Fanout(b, index - 1).value
    {
      var value :- Fanout(b, index);
      if !(value >= prior && value <= b.header.termCount) {
        return Err("fanout is not monotonic");
      }
      prior := value;
      index := index + 1;
    }
    r := Ok(());
  }

  method ValidateTerms(b: Bundle, hash: Hash, seeded: Seeded) returns (r: Result<()>)
    ensures r.Ok? <==> ValidTerms(b, hash, seeded, b.header.termCount)
  {
    hide CheckTerm;
    var prior := 0;
    var index := 0;
    while index < b.header.termCount
      invariant 0 <= index <= b.header.termCount
      invariant ValidTerms(b, hash, seeded, index)
      invariant index > 0 ==> prior == CheckTerm(b, index - 1, hash, seeded).value.hash
    {
      var term :- CheckTerm(b, index, hash, seeded);
      if index > 0 && term.hash < prior {
        return Err("term hashes are not sorted");
      }
      prior := term.hash;
      index := index + 1;
    }
    r := Ok(());
  }

  /** Accepts exactly the indexes whose fanout, terms, slots, records and audio entries all pass. */
  method ValidateStructure(b: Bundle, hash: Hash, seeded: Seeded) returns (r: Result<()>)
    ensures r.Ok? <==> ValidStructure(b, hash, seeded)
  {
    hide CheckTerm, CheckSlot, CheckRecord, CheckAudio, ValidFanout, ValidTerms;
    var _ :- ValidateFanout(b);
    var _ :- ValidateTerms(b, hash, seeded);
    var index := 0;
    while index < b.header.termCount
      invariant 0 <= index <= b.header.termCount
      invariant forall i :: 0 <= i < index ==> CheckSlot(b, i).Ok?
    {
      var _ :- CheckSlot(b, index);
      index := index + 1;
    }
    index := 0;
    while index < b.header.recordCount
      invariant 0 <= index <= b.header.recordCount
      invariant forall i :: 0 <= i < index ==> CheckRecord(b, i).Ok?
    {
      var _ :- CheckRecord(b, index);
      index := index + 1;
    }
    index := 0;
    while index < b.header.audioCount
      invariant 0 <= index <= b.header.audioCount
      invariant forall i :: 0 <= i < index ==> CheckAudio(b, i).Ok?
    {
      var _ :- CheckAudio(b, index);
      index := index + 1;
    }
    r := Ok(());
  }

  /* ---- What acceptance promises. ---- */

  /** A sorted term names records that exist, and the perfect hash finds the same ones under its text. */
  lemma CheckedTerm(b: Bundle, i: nat, hash: Hash, seeded: Seeded)
    requires ValidStructure(b, hash, seeded) && i < b.header.termCount
    ensures Term(b, i).Ok? && CheckTerm(b, i, hash, seeded) == Term(b, i)
    ensures var term := Term(b, i).value;
            && term.first + term.count <= b.header.recordCount && String(b, term.text).Ok?
            && var found := LookupTermMph(b, String(b, term.text).value, hash, seeded);
               && found.Ok? && found.value.Some?
               && found.value.value.first == term.first && found.value.value.count == term.count
               && String(b, found.value.value.text) == String(b, term.text)
  {
    hide Term, String, LookupTermMph, ValidFanout, CheckSlot, CheckRecord, CheckAudio;
    assert CheckTerm(b, i, hash, seeded).Ok?;
  }

  lemma NeighboursAscend(b: Bundle, hash: Hash, seeded: Seeded, i: nat)
    requires ValidStructure(b, hash, seeded) && 0 < i < b.header.termCount
    ensures Term(b, i - 1).Ok? && Term(b, i).Ok? && Term(b, i - 1).value.hash <= Term(b, i).value.hash
  {
    hide *;
    CheckedAscend(b, hash, seeded, i);
    CheckReads(b, i - 1, hash, seeded);
    CheckReads(b, i, hash, seeded);
  }

  lemma CheckReads(b: Bundle, i: nat, hash: Hash, seeded: Seeded)
    ensures CheckTerm(b, i, hash, seeded).Ok? ==> Term(b, i) == CheckTerm(b, i, hash, seeded)
  {
    hide Term, String, LookupTermMph;
  }

  lemma CheckedAscend(b: Bundle, hash: Hash, seeded: Seeded, i: nat)
    requires ValidStructure(b, hash, seeded) && 0 < i < b.header.termCount
    ensures CheckTerm(b, i - 1, hash, seeded).Ok? && CheckTerm(b, i, hash, seeded).Ok?
    ensures CheckTerm(b, i - 1, hash, seeded).value.hash <= CheckTerm(b, i, hash, seeded).value.hash
  {
    hide CheckTerm, ValidFanout, CheckSlot, CheckRecord, CheckAudio;
  }

  /** Hashes ascend, so a binary search may trust them. */
  lemma {:induction false} TermsAscend(b: Bundle, hash: Hash, seeded: Seeded, i: nat, j: nat)
    requires ValidStructure(b, hash, seeded) && i <= j < b.header.termCount
    ensures Term(b, i).Ok? && Term(b, j).Ok? && Term(b, i).value.hash <= Term(b, j).value.hash
    decreases j
  {
    hide *;
    if i < j {
      TermsAscend(b, hash, seeded, i, j - 1);
      NeighboursAscend(b, hash, seeded, j);
    } else {
      CheckedTerm(b, i, hash, seeded);
    }
  }

  /** No query on an accepted index meets a record, string, source or byte range that is not there. */
  lemma AcceptedMeans(b: Bundle, hash: Hash, seeded: Seeded, i: nat)
    requires ValidStructure(b, hash, seeded)
    ensures i < b.header.recordCount ==>
              && Record(b, i).Ok?
              && var record := Record(b, i).value;
                 && record.source < |b.sources| && Audio(b, record.audioId).Ok?
                 && OptionalString(b, record.reading).Ok? && OptionalString(b, record.speaker).Ok?
                 && String(b, record.name).Ok?
    ensures i < b.header.audioCount ==>
              && Audio(b, i).Ok?
              && var audio := Audio(b, i).value;
                 && audio.source < |b.sources| && String(b, audio.path).Ok?
                 && audio.packOffset + audio.length <= b.packLength
  {
    hide Record, Audio, String, OptionalString, ValidFanout, ValidTerms, CheckSlot;
    if i < b.header.recordCount {
      assert CheckRecord(b, i).Ok?;
      assert CheckAudio(b, Record(b, i).value.audioId).Ok?;
    }
    if i < b.header.audioCount {
      assert CheckAudio(b, i).Ok?;
    }
  }

  /* ---- Every compiled file passes. ---- */

  /** Ranges and references the compiler keeps inside its own tables. */
  ghost predicate SoundTables(t: Tables, packLength: nat, sourceCount: nat) {
    && packLength < U64_LIMIT
    && (forall i :: 0 <= i < |t.terms| ==> t.terms[i].first + t.terms[i].count <= |t.records|)
    && (forall i :: 0 <= i < |t.records| ==> SoundRecord(t, t.records[i], sourceCount))
    && (forall i :: 0 <= i < |t.audio| ==> SoundAudio(t, t.audio[i], packLength, sourceCount))
  }

  ghost predicate HasText(strings: seq<byte>, reference: StringRef) {
    exists text :: Readable(strings, reference, text)
  }

  ghost predicate HasOption(strings: seq<byte>, reference: StringRef) {
    exists value :: OptionReadable(strings, reference, value)
  }

  ghost predicate SoundRecord(t: Tables, r: RecordEntry, sourceCount: nat) {
    && r.audioId < |t.audio| && r.source < sourceCount
    && t.audio[r.audioId].source == r.source
    && HasOption(t.strings, r.reading) && HasOption(t.strings, r.speaker) && HasText(t.strings, r.name)
  }

  ghost predicate SoundAudio(t: Tables, a: AudioEntry, packLength: nat, sourceCount: nat) {
    a.source < sourceCount && HasText(t.strings, a.path) && a.packOffset + a.length <= packLength
  }

  lemma CompiledTermPasses(b: Bundle, t: Tables, keys: seq<Text>, hash: Hash, seeded: Seeded, i: nat)
    requires Compiled(b, t, keys, hash, seeded) && i < |t.terms|
    requires t.terms[i].first + t.terms[i].count <= |t.records|
    ensures CheckTerm(b, i, hash, seeded) == Ok(t.terms[i])
  {
    hide Term, String, LookupTermMph, Perfect, Cuts, HashSorted, Entry;
    assert Term(b, i) == Ok(t.terms[i]);
    assert String(b, t.terms[i].text) == Ok(keys[i]);
    MphAgrees(b, t, keys, keys[i], hash, seeded);
    EntryAt(t.terms, keys, i);
  }

  lemma CompiledSlotPasses(b: Bundle, t: Tables, keys: seq<Text>, hash: Hash, seeded: Seeded, s: nat)
    requires Compiled(b, t, keys, hash, seeded) && s < |t.terms|
    requires forall i :: 0 <= i < |t.terms| ==> t.terms[i].first + t.terms[i].count <= |t.records|
    ensures CheckSlot(b, s).Ok?
  {
    hide MphTerm, String, Cuts, HashSorted;
    assert MphTerm(b, s) == Ok(t.slots[s]);
    assert Occupied(s, t.terms, keys, seeded, t.displacements, t.slots);
    var i :| 0 <= i < |t.terms| && t.slots[s] == t.terms[i];
    assert String(b, t.terms[i].text) == Ok(keys[i]);
  }

  lemma CompiledRecordPasses(b: Bundle, t: Tables, i: nat)
    requires Decodes(b, t) && i < |t.records| && SoundRecord(t, t.records[i], |b.sources|)
    ensures CheckRecord(b, i) == Ok(t.records[i])
  {
    hide Record, String, OptionalString;
    var record := t.records[i];
    assert Record(b, i) == Ok(record);
    var reading :| OptionReadable(t.strings, record.reading, reading);
    var speaker :| OptionReadable(t.strings, record.speaker, speaker);
    var name :| Readable(t.strings, record.name, name);
    assert OptionalString(b, record.reading) == Ok(reading);
    assert OptionalString(b, record.speaker) == Ok(speaker);
    assert String(b, record.name) == Ok(name);
  }

  lemma CompiledAudioPasses(b: Bundle, t: Tables, i: nat)
    requires Decodes(b, t) && i < |t.audio| && b.packLength < U64_LIMIT
    requires SoundAudio(t, t.audio[i], b.packLength, |b.sources|)
    ensures CheckAudio(b, i) == Ok(t.audio[i])
  {
    hide Audio, String;
    assert Audio(b, i) == Ok(t.audio[i]);
    var path :| Readable(t.strings, t.audio[i].path, path);
    assert String(b, t.audio[i].path) == Ok(path);
  }

  lemma FanoutEnds(terms: seq<TermEntry>, first: nat, last: nat)
    requires Cuts(terms, 0, first) && Cuts(terms, FANOUT_LEN - 1, last)
    requires forall i :: 0 <= i < |terms| ==> terms[i].hash < U64_LIMIT
    ensures first == 0 && last == |terms|
  {
    forall i | 0 <= i < |terms| ensures Top(terms[i].hash) < FANOUT_LEN - 1 {
      TopBound(terms[i].hash);
    }
    assert Cuts(terms, 0, 0) && Cuts(terms, FANOUT_LEN - 1, |terms|);
    CutCounts(terms, 0, 0);
    CutCounts(terms, 0, first);
    CutCounts(terms, FANOUT_LEN - 1, |terms|);
    CutCounts(terms, FANOUT_LEN - 1, last);
  }

  lemma CompiledFanoutPasses(b: Bundle, t: Tables, keys: seq<Text>, hash: Hash, seeded: Seeded)
    requires Compiled(b, t, keys, hash, seeded)
    ensures ValidFanout(b)
  {
    hide Fanout, HashSorted, Resolves, Occupied;
    var n := |t.terms|;
    forall i | 0 <= i < FANOUT_LEN ensures Fanout(b, i) == Ok(t.fanout[i]) && t.fanout[i] <= n {
      assert Cuts(t.terms, i, t.fanout[i]);
    }
    forall i | 0 < i < FANOUT_LEN ensures t.fanout[i - 1] <= t.fanout[i] {
      CutsOrdered(t.terms, i - 1, t.fanout[i - 1], t.fanout[i]);
    }
    assert Cuts(t.terms, 0, t.fanout[0]) && Cuts(t.terms, FANOUT_LEN - 1, t.fanout[FANOUT_LEN - 1]);
    forall i | 0 <= i < n ensures t.terms[i].hash < U64_LIMIT {
      assert t.terms[i].hash == hash(keys[i]);
    }
    FanoutEnds(t.terms, t.fanout[0], t.fanout[FANOUT_LEN - 1]);
    assert Fanout(b, 0) == Ok(t.fanout[0]) && Fanout(b, FANOUT_LEN - 1) == Ok(n);
  }

  lemma TopBound(hash: nat)
    requires hash < U64_LIMIT
    ensures Top(hash) < FANOUT_LEN - 1
    ensures Top(hash) * 0x1_0000_0000_0000 <= hash < (Top(hash) + 1) * 0x1_0000_0000_0000
  {
  }

  /** `validate_structure` accepts every file the compiler writes. */
  lemma CompiledStructureValid(b: Bundle, t: Tables, keys: seq<Text>, hash: Hash, seeded: Seeded)
    requires Compiled(b, t, keys, hash, seeded)
    requires SoundTables(t, b.packLength, |b.sources|)
    ensures ValidStructure(b, hash, seeded)
  {
    hide CheckTerm, CheckSlot, CheckRecord, CheckAudio, ValidFanout, SoundRecord, SoundAudio, Perfect,
      Fanout, Term, MphTerm, MphDisplacement, Record, Audio, String, OptionalString;
    CompiledFanoutPasses(b, t, keys, hash, seeded);
    forall i | 0 <= i < |t.terms|
      ensures CheckTerm(b, i, hash, seeded) == Ok(t.terms[i]) && CheckSlot(b, i).Ok?
    {
      CompiledTermPasses(b, t, keys, hash, seeded, i);
      CompiledSlotPasses(b, t, keys, hash, seeded, i);
    }
    forall i | 0 <= i < |t.records| ensures CheckRecord(b, i).Ok? {
      CompiledRecordPasses(b, t, i);
    }
    forall i | 0 <= i < |t.audio| ensures CheckAudio(b, i).Ok? {
      CompiledAudioPasses(b, t, i);
    }
  }
}
