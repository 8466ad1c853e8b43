/** Queries against an opened bundle: every candidate of a term in preference order, or the best one. */
module Query {
  import opened Wrappers
  import opened Text
  import opened LittleEndian
  import opened Sorting
  import opened Strings
  import opened Layout
  import opened Bundle
  import opened Mph
  import opened Lookup
  import opened Structure
  import opened Compile
  import opened CompileTables
  import opened Selection

  datatype QueryInput = QueryInput(
    term: Text, reading: Option<Text>, sources: Option<seq<Text>>, users: seq<Text>)

  datatype Candidate = Candidate(
    audioId: nat, audio: AudioEntry, source: Text, name: Text,
    speaker: Option<Text>, reading: Option<Text>, ordinal: nat)

  /* ---- Ranks. ---- */

  function Requested(query: QueryInput, ids: seq<Text>): seq<Text> {
    query.sources.GetOr(ids)
  }

  function Request(query: QueryInput, ids: seq<Text>): LookupRequest {
    LookupRequest(query.term, query.reading, Requested(query, ids), query.users)
  }

  ghost predicate DistinctNames(names: seq<Text>) {
    forall i, j :: 0 <= i < j < |names| ==> names[i] != names[j]
  }

  /** A source index ranks exactly when its id is requested, and ranks as its id does. */
  ghost predicate RanksBySource(ranks: map<nat, nat>, ids: seq<Text>, requested: seq<Text>) {
    && (forall index: nat :: index in ranks <==> index < |ids| && ids[index] in RankMap(requested))
    && (forall index :: index in ranks ==> ranks[index] == RankMap(requested)[ids[index]])
  }

  lemma PositionUnique(names: seq<Text>, i: nat)
    requires DistinctNames(names) && i < |names|
    ensures Position(names, names[i]) == Some(i)
  {
  }

  lemma {:induction false} OwnRank(ids: seq<Text>, i: nat)
    requires DistinctNames(ids) && i < |ids|
    ensures ids[i] in RankMap(ids) && RankMap(ids)[ids[i]] == i
  {
    RankedNames(ids, ids[i]);
    assert ids[RankMap(ids)[ids[i]]] == ids[i];
  }

  lemma RankStep(ranks: map<nat, nat>, ids: seq<Text>, front: seq<Text>, id: Text)
    requires RanksBySource(ranks, ids, front) && DistinctNames(ids)
    ensures var position := Position(ids, id);
            RanksBySource(
              if position.Some? && position.value !in ranks then ranks[position.value := |front|] else ranks,
              ids, front + [id])
  {
    assert (front + [id])[..|front|] == front;
    forall i | 0 <= i < |ids| && ids[i] == id ensures Position(ids, id) == Some(i) {
      PositionUnique(ids, i);
    }
  }

  /** `source_rank`; `index as u16` drops the high bits of a source position. */
  method SourceRank(ids: seq<Text>, query: QueryInput) returns (ranks: map<nat, nat>)
    ensures DistinctNames(ids) && |ids| <= U16_LIMIT ==> RanksBySource(ranks, ids, Requested(query, ids))
  {
    match query.sources
    case None => ranks := RankAll(ids);
    case Some(requested) => ranks := RankRequested(ids, requested);
  }

  method RankAll(ids: seq<Text>) returns (ranks: map<nat, nat>)
    ensures DistinctNames(ids) && |ids| <= U16_LIMIT ==> RanksBySource(ranks, ids, ids)
  {
    hide RankMap;
    ghost var good := DistinctNames(ids) && |ids| <= U16_LIMIT;
    ranks := map[];
    for index := 0 to |ids|
      invariant good ==> forall i: nat :: i in ranks <==> i < index
      invariant good ==> forall i :: i in ranks ==> ranks[i] == i
    {
      ranks := ranks[index % U16_LIMIT := index];
    }
    if good {
      forall i | 0 <= i < |ids| ensures ids[i] in RankMap(ids) && RankMap(ids)[ids[i]] == i {
        OwnRank(ids, i);
      }
    }
  }

  method RankRequested(ids: seq<Text>, requested: seq<Text>) returns (ranks: map<nat, nat>)
    ensures DistinctNames(ids) && |ids| <= U16_LIMIT ==> RanksBySource(ranks, ids, requested)
  {
    hide RanksBySource;
    ghost var good := DistinctNames(ids) && |ids| <= U16_LIMIT;
    ranks := map[];
    NothingRanked(ids, requested[..0]);
    for rank := 0 to |requested|
      invariant good ==> RanksBySource(ranks, ids, requested[..rank])
    {
      var position := Position(ids, requested[rank]);
      if good {
        assert requested[..rank + 1] == requested[..rank] + [requested[rank]];
        RankStep(ranks, ids, requested[..rank], requested[rank]);
      }
      if position.Some? && position.value % U16_LIMIT !in ranks {
        ranks := ranks[position.value % U16_LIMIT := rank];
      }
    }
    assert requested[..|requested|] == requested;
  }

  lemma NothingRanked(ids: seq<Text>, requested: seq<Text>)
    requires requested == []
    ensures RanksBySource(map[], ids, requested)
  {
  }

  /* ---- Comparing candidates. ---- */

  datatype Ordering = Lesser | Same | Greater {
    function Then(next: Ordering): Ordering {
      if Same? then next else this
    }
  }

  function CompareNat(a: nat, b: nat): Ordering {
    if a < b then Lesser else if a > b then Greater else Same
  }

  function OptionalTextCmp(a: Option<Text>, b: Option<Text>): Ordering {
    match (a, b)
    case (None, None) => Same
    case (None, Some(_)) => Lesser
    case (Some(_), None) => Greater
    case (Some(x), Some(y)) => if Less(x, y) then Lesser else if x == y then Same else Greater
  }

  function SpeakerSort(speaker: Option<Text>, users: map<Text, nat>): (nat, nat) {
    match speaker
    case None => (0, 0)
    case Some(value) =>
      if |users| == 0 then (1, 0)
      else (1, if value in users then users[value] else U64_LIMIT - 1)
  }

  /** `compare_candidates`. */
  function CompareCandidates(
    left: Candidate, right: Candidate, sources: map<nat, nat>, users: map<Text, nat>): Ordering
    requires left.audio.source in sources && right.audio.source in sources
  {
    var l, r := SpeakerSort(left.speaker, users), SpeakerSort(right.speaker, users);
    CompareNat(sources[left.audio.source], sources[right.audio.source])
    .Then(CompareNat(l.0, r.0).Then(CompareNat(l.1, r.1)))
    .Then(OptionalTextCmp(left.reading, right.reading))
    .Then(CompareNat(left.ordinal, right.ordinal))
  }

  function CandidateKey(sources: map<nat, nat>, users: map<Text, nat>): Candidate -> RankKey {
    (c: Candidate) => RankKey(
      if c.audio.source in sources then sources[c.audio.source] else 0,
      if c.speaker.None? then -1 else SpeakerSort(c.speaker, users).1,
      c.reading, c.ordinal)
  }

  /** The comparator is a total order: that of the key. */
  lemma ComparatorFollowsKey(
    left: Candidate, right: Candidate, sources: map<nat, nat>, users: map<Text, nat>)
    requires left.audio.source in sources && right.audio.source in sources
    ensures var key := CandidateKey(sources, users);
            && (CompareCandidates(left, right, sources, users) == Lesser <==> KeyLess(key(left), key(right)))
            && (CompareCandidates(left, right, sources, users) == Greater <==> KeyLess(key(right), key(left)))
  {
    if left.reading.Some? && right.reading.Some? {
      LessTotal(left.reading.value, right.reading.value);
      LessIrreflexive(left.reading.value);
      if Less(left.reading.value, right.reading.value) && Less(right.reading.value, left.reading.value) {
        LessTransitive(left.reading.value, right.reading.value, left.reading.value);
      }
    }
  }

  /* ---- Resolving one record. ---- */

  /** `resolve_record`. */
  function ResolveRecord(
    b: Bundle, record: RecordEntry, ordinal: nat, query: QueryInput,
    sources: map<nat, nat>, users: map<Text, nat>): (r: Result<Option<Candidate>>)
    ensures r.Ok? && r.value.Some? ==> r.value.value.audio.source in sources
  {
    if record.source !in sources then Ok(None)
    else
      var reading :- OptionalString(b, record.reading);
      if query.reading.Some? && reading.Some? && reading.value != query.reading.value then Ok(None)
      else
        var speaker :- OptionalString(b, record.speaker);
        if query.users != [] && speaker.Some? && speaker.value !in users then Ok(None)
        else
          var _ :- Ensure(record.source < |b.sources|, "record source is outside manifest");
          var name :- String(b, record.name);
          var audio :- Audio(b, record.audioId);
          var _ :- Ensure(audio.source == record.source, "record/audio source mismatch");
          Ok(Some(Candidate(record.audioId, audio,
                            if record.source < |b.sources| then b.sources[record.source] else [],
                            name, speaker, reading, ordinal)))
  }

  /** The inputs an index was compiled from, kept for specification. */
  datatype Index = Index(
    t: Tables, keys: seq<Text>, rows: seq<Row>, sources: seq<Source>, assets: seq<Asset>)

  /** `b` opens a file compiled from `x`, whose string table stayed below the null offset. */
  ghost predicate Opened(b: Bundle, x: Index, hash: Hash, seeded: Seeded) {
    && Compiled(b, x.t, x.keys, hash, seeded)
    && CompiledFrom(x.t, x.keys, x.rows, x.sources, x.assets, hash, seeded)
    && |x.t.strings| < NONE_REF
    && DistinctSources(x.sources) && |x.sources| < U16_LIMIT
    && b.sources == Ids(x.sources)
    && OrderedRows(x.rows)
  }

  /** The candidate carries everything its row says. */
  ghost predicate AnswersRow(c: Candidate, row: Row, x: Index) {
    && c.source == row.source && c.reading == row.reading && c.speaker == row.speaker
    && SourceIndex(x.sources, row.source) == Some(c.audio.source)
    && Names(x.sources[c.audio.source].display, row.display, c.name)
    && c.audioId < |x.assets| == |x.t.audio|
    && x.assets[c.audioId].source == c.audio.source && x.assets[c.audioId].path == row.file
    && c.audio == x.t.audio[c.audioId]
  }

  function Passes(query: QueryInput, ids: seq<Text>): Row -> bool {
    (row: Row) => MatchesReading(query.reading)(row) && Admits(Request(query, ids))(row)
  }

  /** A record resolves to its row when the row passes every filter, and never to an error. */
  lemma RecordResolves(
    b: Bundle, x: Index, record: RecordEntry, row: Row, ordinal: nat, query: QueryInput,
    sources: map<nat, nat>, users: map<Text, nat>)
    requires Decodes(b, x.t) && |x.t.strings| < NONE_REF && b.sources == Ids(x.sources)
    requires |x.t.audio| == |x.assets|
    requires forall i :: 0 <= i < |x.assets| ==> AudioMeans(x.t.strings, x.t.audio[i], x.assets[i])
    requires RecordMeans(x.t.strings, record, row, x.sources, x.assets)
    requires RanksBySource(sources, b.sources, Requested(query, b.sources)) && users == RankMap(query.users)
    ensures var r := ResolveRecord(b, record, ordinal, query, sources, users);
            && r.Ok?
            && (r.value.Some? <==> Passes(query, b.sources)(row))
            && (r.value.Some? ==> AnswersRow(r.value.value, row, x) && r.value.value.ordinal == ordinal
                                  && r.value.value.audio.source in sources)
  {
    RecordReads(b, x, record, row);
    RecordSource(b, x, record, row);
    hide Decodes, AudioMeans, RecordMeans, DisplayName, RankMap, RanksBySource, Requested, SourceIndex, Ids,
      ResolveRecord;
    ResolvesTo(b, record, ordinal, query, sources, users, row.reading, row.speaker,
               DisplayName(x.sources[record.source].display, row.display), x.t.audio[record.audioId]);
    FiltersAgree(b.sources, record.source, row, query, sources, users);
    hide Passes, OptionalString, String, Audio;
  }

  lemma RecordSource(b: Bundle, x: Index, record: RecordEntry, row: Row)
    requires b.sources == Ids(x.sources) && RecordMeans(x.t.strings, record, row, x.sources, x.assets)
    ensures record.source < |b.sources| == |x.sources| && b.sources[record.source] == row.source
  {
    hide Holds, OptionHolds, FitsRef, DisplayName, Position;
  }

  predicate Filtered(
    source: nat, reading: Option<Text>, speaker: Option<Text>, query: QueryInput,
    sources: map<nat, nat>, users: map<Text, nat>)
  {
    && source in sources
    && !(query.reading.Some? && reading.Some? && reading.value != query.reading.value)
    && !(query.users != [] && speaker.Some? && speaker.value !in users)
  }

  /** `resolve_record`, once every accessor has answered. */
  lemma ResolvesTo(
    b: Bundle, record: RecordEntry, ordinal: nat, query: QueryInput, sources: map<nat, nat>, users: map<Text, nat>,
    reading: Option<Text>, speaker: Option<Text>, name: Text, audio: AudioEntry)
    requires OptionalString(b, record.reading) == Ok(reading) && OptionalString(b, record.speaker) == Ok(speaker)
    requires String(b, record.name) == Ok(name) && Audio(b, record.audioId) == Ok(audio)
    requires record.source < |b.sources| && audio.source == record.source
    ensures ResolveRecord(b, record, ordinal, query, sources, users)
         == Ok(if Filtered(record.source, reading, speaker, query, sources, users)
               then Some(Candidate(record.audioId, audio, b.sources[record.source], name, speaker, reading, ordinal))
               else None)
  {
    hide OptionalString, String, Audio;
  }

  /** The filters of the query are those of the add-on's selection. */
  lemma FiltersAgree(
    ids: seq<Text>, source: nat, row: Row, query: QueryInput, sources: map<nat, nat>, users: map<Text, nat>)
    requires source < |ids| && ids[source] == row.source
    requires RanksBySource(sources, ids, Requested(query, ids)) && users == RankMap(query.users)
    ensures Filtered(source, row.reading, row.speaker, query, sources, users) <==> Passes(query, ids)(row)
  {
    hide RankMap;
    RankedNames(Requested(query, ids), row.source);
    if row.speaker.Some? { RankedNames(query.users, row.speaker.value); }
    assert MatchesReading(query.reading)(row) <==>
        !(query.reading.Some? && row.reading.Some? && row.reading.value != query.reading.value);
    assert Admits(Request(query, ids))(row) <==>
        row.source in Requested(query, ids)
        && !(query.users != [] && row.speaker.Some? && row.speaker.value !in users);
  }

  /** The accessors give back what the record's row says. */
  lemma RecordReads(b: Bundle, x: Index, record: RecordEntry, row: Row)
    requires Decodes(b, x.t) && |x.t.strings| < NONE_REF && |x.t.audio| == |x.assets|
    requires forall i :: 0 <= i < |x.assets| ==> AudioMeans(x.t.strings, x.t.audio[i], x.assets[i])
    requires RecordMeans(x.t.strings, record, row, x.sources, x.assets)
    ensures OptionalString(b, record.reading) == Ok(row.reading)
    ensures OptionalString(b, record.speaker) == Ok(row.speaker)
    ensures String(b, record.name) == Ok(DisplayName(x.sources[record.source].display, row.display))
    ensures Audio(b, record.audioId) == Ok(x.t.audio[record.audioId])
    ensures x.t.audio[record.audioId].source == record.source
  {
    hide Holds, OptionalString, String, Audio, FitsRef, DisplayName, Position, Term, MphTerm, Fanout, Record,
      MphDisplacement;
    OptionBecomesReadable(x.t.strings, record.reading, row.reading);
    OptionBecomesReadable(x.t.strings, record.speaker, row.speaker);
    SmallTableReadable(x.t.strings, record.name, DisplayName(x.sources[record.source].display, row.display));
    assert AudioMeans(x.t.strings, x.t.audio[record.audioId], x.assets[record.audioId]);
  }

  /* ---- From the records of a term to its rows. ---- */

  function TermRows(x: Index, term: Text): seq<Row> {
    CompilerOrder(x.rows, term, x.sources)
  }

  /** The candidates found among the first `k` records are the rows that passed, in compiler order. */
  ghost predicate Gathered(
    output: seq<Candidate>, passed: seq<Row>, ordered: seq<Row>, first: nat, k: nat,
    x: Index, sources: map<nat, nat>)
  {
    && k <= |ordered| && |output| == |passed|
    && (forall i :: 0 <= i < |output| ==>
          AnswersRow(output[i], passed[i], x) && output[i].audio.source in sources
          && first <= output[i].ordinal < first + k
          && ordered[output[i].ordinal - first] == passed[i])
  }

  lemma GatherStep(
    output: seq<Candidate>, passed: seq<Row>, ordered: seq<Row>, first: nat, k: nat,
    x: Index, sources: map<nat, nat>, found: Option<Candidate>)
    requires Gathered(output, passed, ordered, first, k, x, sources) && k < |ordered|
    requires found.Some? ==> AnswersRow(found.value, ordered[k], x)
                             && found.value.audio.source in sources && found.value.ordinal == first + k
    ensures if found.Some?
            then Gathered(output + [found.value], passed + [ordered[k]], ordered, first, k + 1, x, sources)
            else Gathered(output, passed, ordered, first, k + 1, x, sources)
  {
    hide AnswersRow;
  }

  /** Record `k` of a compiled entry is row `k` of the term in compiler order. */
  lemma EntryRecords(b: Bundle, x: Index, term: Text, entry: TermEntry, hash: Hash, seeded: Seeded, k: nat)
    requires Opened(b, x, hash, seeded) && Entry(x.t.terms, x.keys, term) == Some(entry)
    requires k < entry.count
    ensures entry.count == |TermRows(x, term)| && entry.first + k < |x.t.records|
    ensures Record(b, entry.first + k) == Ok(x.t.records[entry.first + k])
    ensures RecordMeans(x.t.strings, x.t.records[entry.first + k], TermRows(x, term)[k], x.sources, x.assets)
  {
    hide RecordMeans, Record, Perfect, HashSorted, Cuts, Holds, CompilerOrder, Meant, HasTerm;
    var i :| 0 <= i < |x.keys| && x.keys[i] == term && x.t.terms[i] == entry;
    assert FlushedTerm(x.t.terms[i], x.t.records, x.keys[i], CompilerOrder(x.rows, x.keys[i], x.sources),
                       x.sources, x.assets, hash, x.t.strings);
  }

  lemma EntryCount(b: Bundle, x: Index, term: Text, hash: Hash, seeded: Seeded)
    requires Opened(b, x, hash, seeded)
    ensures var entry := Entry(x.t.terms, x.keys, term);
            |TermRows(x, term)| == (if entry.Some? then entry.value.count else 0)
  {
    hide RecordMeans, Perfect, HashSorted, Cuts, Holds, Meant, HasTerm, SortByKey, RowsFor;
    if term in x.keys {
      var i :| 0 <= i < |x.keys| && x.keys[i] == term && Entry(x.t.terms, x.keys, term) == Some(x.t.terms[i]);
      assert FlushedTerm(x.t.terms[i], x.t.records, x.keys[i], CompilerOrder(x.rows, x.keys[i], x.sources),
                         x.sources, x.assets, hash, x.t.strings);
    } else {
      assert !HasTerm(x.rows, term);
      RowsForNone(x.rows, term);
    }
  }

  /** The rows a query answers with, before sorting, in compiler order. */
  function PassedRows(x: Index, query: QueryInput): seq<Row> {
    Keep(TermRows(x, query.term), Passes(query, Ids(x.sources)))
  }

  /** The turn of a query loop for the `k`-th record of an entry goes through. */
  ghost predicate TurnOk(
    b: Bundle, entry: TermEntry, k: nat, query: QueryInput, sources: map<nat, nat>, users: map<Text, nat>)
  {
    && Record(b, entry.first + k).Ok?
    && ResolveRecord(b, Record(b, entry.first + k).value, entry.first + k, query, sources, users).Ok?
  }

  /** One turn of both query loops. */
  method ResolveNext(
    b: Bundle, entry: TermEntry, k: nat, query: QueryInput, sources: map<nat, nat>, users: map<Text, nat>,
    ghost x: Index, ghost hash: Hash, ghost seeded: Seeded)
    returns (r: Result<Option<Candidate>>)
    ensures r.Ok? && r.value.Some? ==> r.value.value.audio.source in sources
    ensures r.Ok? <==> TurnOk(b, entry, k, query, sources, users)
    ensures && Opened(b, x, hash, seeded) && Entry(x.t.terms, x.keys, query.term) == Some(entry) && k < entry.count
            && RanksBySource(sources, b.sources, Requested(query, b.sources)) && users == RankMap(query.users)
            ==> var row := TermRows(x, query.term)[k];
                && r.Ok?
                && (r.value.Some? <==> Passes(query, b.sources)(row))
                && (r.value.Some? ==> AnswersRow(r.value.value, row, x)
                                      && r.value.value.ordinal == entry.first + k
                                      && r.value.value.audio.source in sources)
  {
    hide AnswersRow, RecordMeans, Record, Perfect, HashSorted, Cuts, CompilerOrder, EntriesMean, AudioMeans,
      ResolveRecord, OrderedRows, RanksBySource, Passes;
    ghost var good :=
      && Opened(b, x, hash, seeded) && Entry(x.t.terms, x.keys, query.term) == Some(entry) && k < entry.count
      && RanksBySource(sources, b.sources, Requested(query, b.sources)) && users == RankMap(query.users);
    if good {
      EntryRecords(b, x, query.term, entry, hash, seeded, k);
      RecordResolves(b, x, x.t.records[entry.first + k], TermRows(x, query.term)[k],
                     entry.first + k, query, sources, users);
    }
    var record :- Record(b, entry.first + k);
    r := ResolveRecord(b, record, entry.first + k, query, sources, users);
  }

  /* ---- Ordinals stand for row ids. ---- */

  lemma {:induction false} RowsForIds(rows: seq<Row>, term: Text)
    requires OrderedRows(rows)
    ensures DistinctIds(RowsFor(rows, term))
  {
    if rows != [] {
      var front, last := rows[..|rows| - 1], rows[|rows| - 1];
      assert rows == front + [last];
      RowsForIds(front, term);
      RowsForAppend(front, last, term);
      RowsForMembers(front, term);
      if last.expression == term {
        LessIrreflexive(term);
        var kept := RowsFor(front, term);
        forall i | 0 <= i < |kept| ensures kept[i].id != last.id {
          assert kept[i] in kept;
          var k :| 0 <= k < |front| && front[k] == kept[i];
          assert rows[k] == kept[i];
        }
      }
    }
  }

  lemma TermRowsOrdered(x: Index, term: Text)
    requires OrderedRows(x.rows)
    ensures Sorted(TermRows(x, term), FlushKey(x.sources))
    ensures DistinctKeys(TermRows(x, term), FlushKey(x.sources))
    ensures multiset(TermRows(x, term)) == multiset(RowsFor(x.rows, term))
    ensures DistinctIds(TermRows(x, term))
  {
    var rows, key := RowsFor(x.rows, term), FlushKey(x.sources);
    RowsForIds(x.rows, term);
    SortSorted(rows, key);
    SortMultiset(rows, key);
    var byId := (row: Row) => RankKey(0, 0, None, row.id);
    PermutedDistinct(rows, TermRows(x, term), byId);
    PermutedDistinct(rows, TermRows(x, term), key);
    forall i, j | 0 <= i < j < |TermRows(x, term)| ensures TermRows(x, term)[i].id != TermRows(x, term)[j].id {
      assert byId(TermRows(x, term)[i]) != byId(TermRows(x, term)[j]);
    }
  }

  /** Among rows of one source and reading, record positions rise exactly as row ids do. */
  lemma OrdinalsFollowIds(ordered: seq<Row>, sources: seq<Source>, i: nat, j: nat)
    requires Sorted(ordered, FlushKey(sources)) && DistinctKeys(ordered, FlushKey(sources))
    requires i < |ordered| && j < |ordered|
    requires ordered[i].source == ordered[j].source && ordered[i].reading == ordered[j].reading
    ensures i < j <==> ordered[i].id < ordered[j].id
  {
    var key := FlushKey(sources);
    if i < j {
      assert !KeyLess(key(ordered[j]), key(ordered[i])) && key(ordered[i]) != key(ordered[j]);
    } else if j < i {
      assert !KeyLess(key(ordered[i]), key(ordered[j])) && key(ordered[i]) != key(ordered[j]);
    }
  }

  /** The comparator of the query orders candidates exactly as `_select_rows` orders their rows. */
  lemma KeysAlike(
    c: Candidate, d: Candidate, row: Row, other: Row, x: Index, query: QueryInput,
    sources: map<nat, nat>, ordered: seq<Row>, first: nat)
    requires AnswersRow(c, row, x) && AnswersRow(d, other, x)
    requires c.audio.source in sources && d.audio.source in sources
    requires RanksBySource(sources, Ids(x.sources), Requested(query, Ids(x.sources)))
    requires Passes(query, Ids(x.sources))(row) && Passes(query, Ids(x.sources))(other)
    requires Sorted(ordered, FlushKey(x.sources)) && DistinctKeys(ordered, FlushKey(x.sources))
    requires first <= c.ordinal < first + |ordered| && ordered[c.ordinal - first] == row
    requires first <= d.ordinal < first + |ordered| && ordered[d.ordinal - first] == other
    ensures var byCandidate := CandidateKey(sources, RankMap(query.users));
            var byRow := SelectKey(Request(query, Ids(x.sources)));
            KeyLess(byCandidate(c), byCandidate(d)) <==> KeyLess(byRow(row), byRow(other))
  {
    hide Less, RankMap, Position, DisplayName;
    var requested := Requested(query, Ids(x.sources));
    SameLeadingKey(c, row, x, query, sources);
    SameLeadingKey(d, other, x, query, sources);
    if RankMap(requested)[row.source] == RankMap(requested)[other.source] {
      RanksDistinguish(requested, row.source, other.source);
    }
    if row.source == other.source && row.reading == other.reading {
      OrdinalsFollowIds(ordered, x.sources, c.ordinal - first, d.ordinal - first);
    }
  }

  lemma SameLeadingKey(c: Candidate, row: Row, x: Index, query: QueryInput, sources: map<nat, nat>)
    requires AnswersRow(c, row, x) && c.audio.source in sources
    requires RanksBySource(sources, Ids(x.sources), Requested(query, Ids(x.sources)))
    requires Passes(query, Ids(x.sources))(row)
    ensures var byCandidate := CandidateKey(sources, RankMap(query.users))(c);
            var byRow := SelectKey(Request(query, Ids(x.sources)))(row);
            && byCandidate.major == byRow.major && byCandidate.minor == byRow.minor
            && byCandidate.reading == byRow.reading
            && row.source in RankMap(Requested(query, Ids(x.sources)))
            && byRow.major == RankMap(Requested(query, Ids(x.sources)))[row.source]
  {
    hide RankMap, Position, DisplayName;
    var request := Request(query, Ids(x.sources));
    assert Admits(request)(row);
    if row.speaker.Some? {
      RankedNames(query.users, row.speaker.value);
      if query.users == [] {
        NoRanks();
      }
    }
  }

  lemma NoRanks()
    ensures RankMap([]) == map[] && |RankMap([])| == 0
  {
  }

  ghost predicate AnswersRows(output: seq<Candidate>, rows: seq<Row>, x: Index) {
    |output| == |rows| && forall i :: 0 <= i < |output| ==> AnswersRow(output[i], rows[i], x)
  }

  ghost predicate AnswersOption(output: Option<Candidate>, row: Option<Row>, x: Index) {
    output.Some? == row.Some? && (output.Some? ==> AnswersRow(output.value, row.value, x))
  }

  function Zip(output: seq<Candidate>, rows: seq<Row>): (pairs: seq<(Candidate, Row)>)
    requires |output| == |rows|
    ensures |pairs| == |output|
    ensures forall i :: 0 <= i < |pairs| ==> pairs[i] == (output[i], rows[i])
  {
    seq(|output|, i requires 0 <= i < |output| => (output[i], rows[i]))
  }

  lemma PairsAlike(
    output: seq<Candidate>, passed: seq<Row>, ordered: seq<Row>, first: nat, k: nat, x: Index, query: QueryInput,
    sources: map<nat, nat>, byCandidate: ((Candidate, Row)) -> RankKey, byRow: ((Candidate, Row)) -> RankKey)
    requires Gathered(output, passed, ordered, first, k, x, sources)
    requires RanksBySource(sources, Ids(x.sources), Requested(query, Ids(x.sources)))
    requires forall row :: row in passed ==> Passes(query, Ids(x.sources))(row)
    requires Sorted(ordered, FlushKey(x.sources)) && DistinctKeys(ordered, FlushKey(x.sources))
    requires forall p :: byCandidate(p) == CandidateKey(sources, RankMap(query.users))(p.0)
    requires forall p :: byRow(p) == SelectKey(Request(query, Ids(x.sources)))(p.1)
    ensures OrderAlike(Zip(output, passed), byCandidate, byRow)
  {
    hide KeyLess, AnswersRow, RanksBySource, CandidateKey, SelectKey, Passes, Sorted, DistinctKeys, FlushKey;
    var pairs := Zip(output, passed);
    forall p, q | p in pairs && q in pairs
      ensures KeyLess(byCandidate(p), byCandidate(q)) <==> KeyLess(byRow(p), byRow(q))
    {
      var i :| 0 <= i < |pairs| && pairs[i] == p;
      var j :| 0 <= j < |pairs| && pairs[j] == q;
      assert passed[i] in passed && passed[j] in passed;
      KeysAlike(output[i], output[j], passed[i], passed[j], x, query, sources, ordered, first);
    }
  }

  /** Sorting the candidates is sorting their rows. */
  lemma SortedAnswers(
    output: seq<Candidate>, passed: seq<Row>, ordered: seq<Row>, first: nat, k: nat, x: Index, query: QueryInput,
    sources: map<nat, nat>)
    requires Gathered(output, passed, ordered, first, k, x, sources)
    requires RanksBySource(sources, Ids(x.sources), Requested(query, Ids(x.sources)))
    requires forall row :: row in passed ==> Passes(query, Ids(x.sources))(row)
    requires Sorted(ordered, FlushKey(x.sources)) && DistinctKeys(ordered, FlushKey(x.sources))
    ensures AnswersRows(SortByKey(output, CandidateKey(sources, RankMap(query.users))),
                        SortByKey(passed, SelectKey(Request(query, Ids(x.sources)))), x)
  {
    hide KeyLess, AnswersRow, RanksBySource, CandidateKey, SelectKey, Passes, Sorted, DistinctKeys, FlushKey,
      SortByKey, OrderAlike;
    var pairs := Zip(output, passed);
    var left, right := (p: (Candidate, Row)) => p.0, (p: (Candidate, Row)) => p.1;
    var ck, rk := CandidateKey(sources, RankMap(query.users)), SelectKey(Request(query, Ids(x.sources)));
    var byCandidate, byRow := (p: (Candidate, Row)) => ck(left(p)), (p: (Candidate, Row)) => rk(right(p));
    PairsAlike(output, passed, ordered, first, k, x, query, sources, byCandidate, byRow);
    SortAlike(pairs, byCandidate, byRow);
    SortMap(pairs, byCandidate, left, ck);
    SortMap(pairs, byRow, right, rk);
    assert Map(left, pairs) == output && Map(right, pairs) == passed;
    var sorted := SortByKey(pairs, byCandidate);
    forall i | 0 <= i < |sorted| ensures AnswersRow(sorted[i].0, sorted[i].1, x) {
      SortMembers(pairs, byCandidate, sorted[i]);
      assert sorted[i] in pairs;
      var j :| 0 <= j < |pairs| && pairs[j] == sorted[i];
    }
    assert SortByKey(output, ck) == Map(left, sorted);
    assert SortByKey(passed, rk) == Map(right, sorted);
  }

  lemma {:induction false} KeepTwice(rows: seq<Row>, query: QueryInput, ids: seq<Text>)
    ensures Keep(rows, Passes(query, ids))
         == Keep(Keep(rows, MatchesReading(query.reading)), Admits(Request(query, ids)))
  {
    hide Passes, MatchesReading, Admits;
    if rows != [] {
      var front, last := rows[..|rows| - 1], rows[|rows| - 1];
      KeepTwice(front, query, ids);
      assert rows == front + [last];
      KeepAppend(front, last, Passes(query, ids));
      KeepAppend(front, last, MatchesReading(query.reading));
      KeepAppend(Keep(front, MatchesReading(query.reading)), last, Admits(Request(query, ids)));
      PassesBoth(query, ids, last);
    }
  }

  lemma PassesBoth(query: QueryInput, ids: seq<Text>, row: Row)
    ensures Passes(query, ids)(row) <==> MatchesReading(query.reading)(row) && Admits(Request(query, ids))(row)
  {
  }

  /** The selection `_select_rows` makes from the database rows of the query. */
  function SelectedFor(x: Index, query: QueryInput): seq<Row> {
    Selected(MatchingRows(x.rows, query.term, query.reading), Request(query, Ids(x.sources)))
  }

  /** Sorting the rows that passed, from compiler order, is the add-on's selection. */
  lemma PassedSelect(x: Index, query: QueryInput)
    requires OrderedRows(x.rows)
    ensures SortByKey(PassedRows(x, query), SelectKey(Request(query, Ids(x.sources)))) == SelectedFor(x, query)
    ensures forall row :: row in PassedRows(x, query) ==> Passes(query, Ids(x.sources))(row)
  {
    hide SelectKey, Passes, Admits, MatchesReading, SortByKey, OrderedRows, Keep;
    var ids := Ids(x.sources);
    var request := Request(query, ids);
    var found, ordered := RowsFor(x.rows, query.term), TermRows(x, query.term);
    TermRowsOrdered(x, query.term);
    IdsKeepKeysApart(ordered, request);
    KeepDistinct(ordered, Passes(query, ids), SelectKey(request));
    KeepPermuted(ordered, found, Passes(query, ids));
    SortOrderFree(Keep(ordered, Passes(query, ids)), Keep(found, Passes(query, ids)), SelectKey(request));
    KeepTwice(found, query, ids);
    forall row | row in PassedRows(x, query) ensures Passes(query, ids)(row) {
      KeepMembers(ordered, Passes(query, ids), row);
    }
  }

  /* ---- Any accepted index. ---- */

  /** An index that passed the structure check, with a lookup made for it. */
  ghost predicate Accepted(b: Bundle, backend: Backend, hash: Hash, seeded: Seeded) {
    && ValidStructure(b, hash, seeded) && BuiltFrom(b, backend)
    && DistinctNames(b.sources) && |b.sources| <= U16_LIMIT
  }

  ghost predicate InRecords(b: Bundle, entry: TermEntry) {
    entry.first + entry.count <= b.header.recordCount
  }

  /** Record `i` passes every filter of the query, and its audio belongs to another source. */
  ghost predicate Foreign(b: Bundle, i: nat, query: QueryInput) {
    && CheckRecord(b, i).Ok?
    && var record := Record(b, i).value;
       var reading, speaker := OptionalString(b, record.reading).value, OptionalString(b, record.speaker).value;
       && b.sources[record.source] in Requested(query, b.sources)
       && (query.reading.Some? && reading.Some? ==> reading == query.reading)
       && (query.users != [] && speaker.Some? ==> speaker.value in query.users)
       && Audio(b, record.audioId).Ok? && Audio(b, record.audioId).value.source != record.source
  }

  ghost predicate NoneForeign(b: Bundle, entry: TermEntry, query: QueryInput) {
    forall i :: entry.first <= i < entry.first + entry.count ==> !Foreign(b, i, query)
  }

  /** On an accepted record the only error left is the source check. */
  lemma ForeignFails(
    b: Bundle, entry: TermEntry, k: nat, query: QueryInput, sources: map<nat, nat>, users: map<Text, nat>)
    requires CheckRecord(b, entry.first + k).Ok? && Audio(b, Record(b, entry.first + k).value.audioId).Ok?
    requires RanksBySource(sources, b.sources, Requested(query, b.sources)) && users == RankMap(query.users)
    ensures TurnOk(b, entry, k, query, sources, users) <==> !Foreign(b, entry.first + k, query)
  {
    hide OptionalString, String, Audio, Record, RankMap, Requested;
    var record := Record(b, entry.first + k).value;
    RankedNames(Requested(query, b.sources), b.sources[record.source]);
    var speaker := OptionalString(b, record.speaker).value;
    if speaker.Some? { RankedNames(query.users, speaker.value); }
  }

  lemma AcceptedRecord(b: Bundle, i: nat, hash: Hash, seeded: Seeded)
    requires ValidStructure(b, hash, seeded) && i < b.header.recordCount
    ensures CheckRecord(b, i).Ok? && Audio(b, Record(b, i).value.audioId).Ok?
  {
    hide OptionalString, String, Audio, Record, ValidFanout, ValidTerms, CheckSlot;
    assert CheckRecord(b, i).Ok?;
    var audioId := Record(b, i).value.audioId;
    assert CheckAudio(b, audioId).Ok?;
  }

  /** Every entry a lookup returns has its records inside the table. */
  lemma AcceptedEntry(b: Bundle, backend: Backend, term: Text, entry: TermEntry, hash: Hash, seeded: Seeded)
    requires ValidStructure(b, hash, seeded)
    requires if backend.PerfectHash? then LookupTermMph(b, term, hash, seeded) == Ok(Some(entry))
             else Lists(b, entry, term)
    ensures InRecords(b, entry)
  {
    hide String, MphDisplacement, ValidFanout, CheckRecord, CheckAudio;
    if backend.PerfectHash? {
      var slot := SlotOf(term, MphDisplacement(b, hash(term) % b.header.bucketCount).value, b.header.termCount, seeded);
      hide SlotOf, Term, MphTerm;
      assert CheckSlot(b, slot).Ok?;
    } else {
      hide MphTerm, LookupTermMph, CheckSlot, Term;
      var i :| 0 <= i < b.header.termCount && Term(b, i) == Ok(entry);
      assert CheckTerm(b, i, hash, seeded).Ok?;
    }
  }

  lemma AcceptedParts(b: Bundle, backend: Backend, hash: Hash, seeded: Seeded)
    requires Accepted(b, backend, hash, seeded)
    ensures ValidStructure(b, hash, seeded) && BuiltFrom(b, backend)
    ensures DistinctNames(b.sources) && |b.sources| <= U16_LIMIT
  {
  }

  lemma AcceptedSearchable(b: Bundle, hash: Hash, seeded: Seeded)
    requires ValidStructure(b, hash, seeded)
    ensures Searchable(b)
  {
    hide Fanout, Term, String, LookupTermMph, CheckSlot, CheckRecord, CheckAudio;
    forall i | 0 <= i < b.header.termCount ensures TermReadable(b, i) {
      assert CheckTerm(b, i, hash, seeded).Ok?;
    }
  }

  lemma TurnsForeign(
    b: Bundle, entry: TermEntry, query: QueryInput, sources: map<nat, nat>, users: map<Text, nat>,
    hash: Hash, seeded: Seeded)
    requires ValidStructure(b, hash, seeded) && InRecords(b, entry)
    requires RanksBySource(sources, b.sources, Requested(query, b.sources)) && users == RankMap(query.users)
    ensures (forall k :: 0 <= k < entry.count ==> TurnOk(b, entry, k, query, sources, users))
       <==> NoneForeign(b, entry, query)
  {
    hide ValidStructure, RanksBySource, RankMap, Requested, TurnOk, Foreign, CheckRecord, Audio, Record;
    forall i | entry.first <= i < entry.first + entry.count
      ensures TurnOk(b, entry, i - entry.first, query, sources, users) <==> !Foreign(b, i, query)
    {
      AcceptedRecord(b, i, hash, seeded);
      ForeignFails(b, entry, i - entry.first, query, sources, users);
    }
    forall k | 0 <= k < entry.count
      ensures TurnOk(b, entry, k, query, sources, users) <==> !Foreign(b, entry.first + k, query)
    {
      assert k == (entry.first + k) - entry.first;
    }
  }

  /* ---- Queries. ---- */

  /** The loop of `candidates`. */
  method GatherAll(
    b: Bundle, entry: TermEntry, query: QueryInput, sources: map<nat, nat>, users: map<Text, nat>,
    ghost x: Index, ghost hash: Hash, ghost seeded: Seeded)
    returns (r: Result<seq<Candidate>>)
    ensures r.Ok? <==> forall k :: 0 <= k < entry.count ==> TurnOk(b, entry, k, query, sources, users)
    ensures && Opened(b, x, hash, seeded) && Entry(x.t.terms, x.keys, query.term) == Some(entry)
            && RanksBySource(sources, b.sources, Requested(query, b.sources)) && users == RankMap(query.users)
            ==> r.Ok? && Gathered(r.value, PassedRows(x, query), TermRows(x, query.term),
                                  entry.first, entry.count, x, sources)
  {
    hide AnswersRow, Decodes, Perfect, Cuts, HashSorted, CompiledFrom, OrderedRows, RanksBySource, Passes,
      Gathered, CompilerOrder, Keep, Entry, TurnOk;
    ghost var good :=
      && Opened(b, x, hash, seeded) && Entry(x.t.terms, x.keys, query.term) == Some(entry)
      && RanksBySource(sources, b.sources, Requested(query, b.sources)) && users == RankMap(query.users);
    ghost var ordered, passes := TermRows(x, query.term), Passes(query, Ids(x.sources));
    ghost var passed: seq<Row> := [];
    if good {
      EntryCount(b, x, query.term, hash, seeded);
    }
    var output: seq<Candidate> := [];
    StartGathering(ordered, entry.first, x, sources, passes);
    for k := 0 to entry.count
      invariant forall l :: 0 <= l < k ==> TurnOk(b, entry, l, query, sources, users)
      invariant good ==> passed == Keep(ordered[..k], passes)
      invariant good ==> Gathered(output, passed, ordered, entry.first, k, x, sources)
    {
      var candidate :- ResolveNext(b, entry, k, query, sources, users, x, hash, seeded);
      if good {
        GatherStep(output, passed, ordered, entry.first, k, x, sources, candidate);
        assert ordered[..k + 1] == ordered[..k] + [ordered[k]];
        KeepAppend(ordered[..k], ordered[k], passes);
        passed := if candidate.Some? then passed + [ordered[k]] else passed;
      }
      if candidate.Some? {
        output := output + [candidate.value];
      }
    }
    if good {
      assert ordered[..entry.count] == ordered;
    }
    r := Ok(output);
  }

  lemma StartGathering(ordered: seq<Row>, first: nat, x: Index, sources: map<nat, nat>, passes: Row -> bool)
    ensures Keep(ordered[..0], passes) == [] && Gathered([], [], ordered, first, 0, x, sources)
  {
  }

  /**
   * `candidates`: on every compiled bundle the answer is `_select_rows` over the rows of the
   * database, row for row and in the same order, and no error exit is taken. On any other index
   * that passed the structure check it fails exactly when the perfect hash does, or when a record
   * of the entry passes every filter and its audio belongs to another source.
   */
  method Candidates(
    backend: Backend, b: Bundle, query: QueryInput, hash: Hash, seeded: Seeded, ghost x: Index)
    returns (r: Result<seq<Candidate>>, ghost entry: Option<TermEntry>)
    requires hash(query.term) < U64_LIMIT
    ensures Opened(b, x, hash, seeded) && Serves(backend, x.t, x.keys)
            ==> r.Ok? && AnswersRows(r.value, SelectedFor(x, query), x)
    ensures Accepted(b, backend, hash, seeded)
            ==> && (r.Ok? <==> !LookupFails(backend, b, query.term, hash, seeded)
                               && (entry.Some? ==> NoneForeign(b, entry.value, query)))
                && (entry.Some? ==> InRecords(b, entry.value))
  {
    hide *;
    entry := None;
    ghost var accepted := Accepted(b, backend, hash, seeded);
    if accepted {
      AcceptedParts(b, backend, hash, seeded);
      AcceptedSearchable(b, hash, seeded);
    }
    OpenedFacts(b, x, hash, seeded);
    ghost var good := Opened(b, x, hash, seeded) && Serves(backend, x.t, x.keys);
    ghost var ordered := TermRows(x, query.term);
    var lookup := TermEntryOf(backend, b, x.t, x.keys, query.term, hash, seeded);
    if lookup.Err? {
      return Err(lookup.message), None;
    }
    var found := lookup.value;
    if good {
      PassedSelect(x, query);
      TermRowsOrdered(x, query.term);
    }
    if found.None? {
      if good {
        NothingSelected(b, x, query, hash, seeded);
      }
      return Ok([]), None;
    }
    var chosen := found.value;
    entry := Some(chosen);
    var sources := SourceRank(b.sources, query);
    var users := BuildRanks(query.users);
    if accepted {
      AcceptedEntry(b, backend, query.term, chosen, hash, seeded);
      TurnsForeign(b, chosen, query, sources, users, hash, seeded);
    }
    var gathered := GatherAll(b, chosen, query, sources, users, x, hash, seeded);
    if gathered.Err? {
      return Err(gathered.message), entry;
    }
    var output := gathered.value;
    if good {
      SortedAnswers(output, PassedRows(x, query), ordered, chosen.first, chosen.count, x, query, sources);
    }
    r := Ok(SortByKey(output, CandidateKey(sources, users)));
  }

  lemma OpenedFacts(b: Bundle, x: Index, hash: Hash, seeded: Seeded)
    ensures Opened(b, x, hash, seeded) ==>
              && |x.keys| == |x.t.terms| && Compiled(b, x.t, x.keys, hash, seeded) && OrderedRows(x.rows)
              && b.sources == Ids(x.sources) && DistinctNames(b.sources) && |b.sources| <= U16_LIMIT
  {
    hide Decodes, CompiledFrom, OrderedRows;
  }

  lemma NothingSelected(b: Bundle, x: Index, query: QueryInput, hash: Hash, seeded: Seeded)
    requires Opened(b, x, hash, seeded) && Entry(x.t.terms, x.keys, query.term) == None
    ensures PassedRows(x, query) == [] && SelectedFor(x, query) == [] && AnswersRows([], SelectedFor(x, query), x)
  {
    hide SortByKey, Decodes, Perfect, Cuts, HashSorted, CompiledFrom, CompilerOrder, OrderedRows, Entry;
    EntryCount(b, x, query.term, hash, seeded);
    PassedSelect(x, query);
  }

  /* ---- The best candidate. ---- */

  /** The first passing record, in compiler order, is the first row that passes. */
  lemma FirstOfPrefix(ordered: seq<Row>, k: nat, passes: Row -> bool)
    requires k <= |ordered| && Keep(ordered[..k], passes) != []
    ensures Head(Keep(ordered, passes)) == Some(Keep(ordered[..k], passes)[0])
  {
    KeepConcat(ordered[..k], ordered[k..], passes);
    assert ordered == ordered[..k] + ordered[k..];
  }

  lemma HeadAnswers(output: seq<Candidate>, rows: seq<Row>, x: Index)
    requires AnswersRows(output, rows, x)
    ensures AnswersOption(Head(output), Head(rows), x)
  {
  }

  /** What the answer is: the first passing row in compiler order, or the head of the selection. */
  function BestRow(x: Index, query: QueryInput): Option<Row> {
    if query.sources.None? && query.users == [] then Head(PassedRows(x, query))
    else Head(SelectedFor(x, query))
  }

  /** The running best: strictly smaller candidates replace it. */
  method Improve(
    best: Option<Candidate>, candidate: Candidate, sources: map<nat, nat>, users: map<Text, nat>,
    ghost output: seq<Candidate>)
    returns (next: Option<Candidate>)
    requires candidate.audio.source in sources
    requires best.Some? ==> best.value.audio.source in sources
    ensures next.Some? && next.value.audio.source in sources
    ensures best == Head(SortByKey(output, CandidateKey(sources, users)))
            ==> next == Head(SortByKey(output + [candidate], CandidateKey(sources, users)))
  {
    hide KeyLess, SortByKey;
    ScanHead(output, candidate, CandidateKey(sources, users));
    if best.Some? {
      ComparatorFollowsKey(candidate, best.value, sources, users);
    }
    if best.None? || CompareCandidates(candidate, best.value, sources, users) == Lesser {
      return Some(candidate);
    }
    return best;
  }

  lemma NoBest(key: Candidate -> RankKey)
    ensures Head(SortByKey([], key)) == None
  {
  }

  /** Where the scan ends without returning early. */
  lemma ScanEnds(
    best: Option<Candidate>, output: seq<Candidate>, ordered: seq<Row>, first: nat, x: Index, query: QueryInput,
    sources: map<nat, nat>)
    requires OrderedRows(x.rows) && ordered == TermRows(x, query.term)
    requires Gathered(output, PassedRows(x, query), ordered, first, |ordered|, x, sources)
    requires RanksBySource(sources, Ids(x.sources), Requested(query, Ids(x.sources)))
    requires query.sources.None? && query.users == [] ==> output == []
    requires best == Head(SortByKey(output, CandidateKey(sources, RankMap(query.users))))
    ensures AnswersOption(best, BestRow(x, query), x)
  {
    hide AnswersRow, OrderedRows, RanksBySource, Passes, CompilerOrder, Keep, CandidateKey, SortByKey, SelectedFor,
      Sorted, DistinctKeys;
    if query.sources.None? && query.users == [] {
      NoBest(CandidateKey(sources, RankMap(query.users)));
    } else {
      PassedSelect(x, query);
      TermRowsOrdered(x, query.term);
      SortedAnswers(output, PassedRows(x, query), ordered, first, |ordered|, x, query, sources);
      HeadAnswers(SortByKey(output, CandidateKey(sources, RankMap(query.users))), SelectedFor(x, query), x);
    }
  }

  lemma PassedIs(x: Index, query: QueryInput)
    ensures PassedRows(x, query) == Keep(TermRows(x, query.term), Passes(query, Ids(x.sources)))
  {
  }

  lemma FirstAnswers(c: Candidate, row: Row, x: Index, query: QueryInput)
    requires query.sources.None? && query.users == [] && Head(PassedRows(x, query)) == Some(row)
    requires AnswersRow(c, row, x)
    ensures AnswersOption(Some(c), BestRow(x, query), x)
  {
    hide AnswersRow, PassedRows;
  }

  /** The loop of `best_candidate`. */
  method ScanBest(
    b: Bundle, entry: TermEntry, query: QueryInput, sources: map<nat, nat>, users: map<Text, nat>,
    ghost x: Index, ghost hash: Hash, ghost seeded: Seeded)
    returns (r: Result<Option<Candidate>>)
    ensures && Opened(b, x, hash, seeded) && Entry(x.t.terms, x.keys, query.term) == Some(entry)
            && RanksBySource(sources, b.sources, Requested(query, b.sources)) && users == RankMap(query.users)
            ==> r.Ok? && AnswersOption(r.value, BestRow(x, query), x)
  {
    hide *;
    OpenedFacts(b, x, hash, seeded);
    PassedIs(x, query);
    ghost var good :=
      && Opened(b, x, hash, seeded) && Entry(x.t.terms, x.keys, query.term) == Some(entry)
      && RanksBySource(sources, b.sources, Requested(query, b.sources)) && users == RankMap(query.users);
    ghost var ordered, passes := TermRows(x, query.term), Passes(query, Ids(x.sources));
    ghost var output: seq<Candidate>, passed: seq<Row> := [], [];
    if good {
      EntryCount(b, x, query.term, hash, seeded);
    }
    var fast := query.sources.None? && query.users == [];
    var best: Option<Candidate> := None;
    StartGathering(ordered, entry.first, x, sources, passes);
    NoBest(CandidateKey(sources, users));
    for k := 0 to entry.count
      invariant good ==> passed == Keep(ordered[..k], passes)
      invariant good ==> Gathered(output, passed, ordered, entry.first, k, x, sources)
      invariant best == Head(SortByKey(output, CandidateKey(sources, users)))
      invariant best.Some? ==> best.value.audio.source in sources
      invariant fast ==> output == [] && passed == []
    {
      var turn := ResolveNext(b, entry, k, query, sources, users, x, hash, seeded);
      if turn.Err? {
        return Err(turn.message);
      }
      var candidate := turn.value;
      if good {
        GatherStep(output, passed, ordered, entry.first, k, x, sources, candidate);
        assert ordered[..k + 1] == ordered[..k] + [ordered[k]];
        KeepAppend(ordered[..k], ordered[k], passes);
        passed := if candidate.Some? then passed + [ordered[k]] else passed;
      }
      if candidate.Some? {
        if fast {
          if good {
            FirstOfPrefix(ordered, k + 1, passes);
            FirstAnswers(candidate.value, passed[0], x, query);
          }
          return Ok(candidate);
        }
        best := Improve(best, candidate.value, sources, users, output);
        output := output + [candidate.value];
      }
    }
    if good {
      assert ordered[..entry.count] == ordered;
      ScanEnds(best, output, ordered, entry.first, x, query, sources);
    }
    r := Ok(best);
  }

  /** `best_candidate`. */
  method BestCandidate(
    backend: Backend, b: Bundle, query: QueryInput, hash: Hash, seeded: Seeded, ghost x: Index)
    returns (r: Result<Option<Candidate>>)
    requires hash(query.term) < U64_LIMIT
    ensures Opened(b, x, hash, seeded) && Serves(backend, x.t, x.keys)
            ==> r.Ok? && AnswersOption(r.value, BestRow(x, query), x)
  {
    hide AnswersRow, Decodes, Perfect, Cuts, HashSorted, CompiledFrom, OrderedRows, RanksBySource, Passes,
      Serves, SortByKey, Keep, Entry, SelectedFor, PassedRows;
    ghost var good := Opened(b, x, hash, seeded) && Serves(backend, x.t, x.keys);
    var found :- TermEntryOf(backend, b, x.t, x.keys, query.term, hash, seeded);
    if found.None? {
      if good {
        NothingSelected(b, x, query, hash, seeded);
      }
      return Ok(None);
    }
    var sources := SourceRank(b.sources, query);
    var users := BuildRanks(query.users);
    r := ScanBest(b, found.value, query, sources, users, x, hash, seeded);
  }

  /* ---- When the fast path is right. ---- */

  /** The first passing row is speakerless, or no passing row of its source is. */
  ghost predicate FirstIsBest(passed: seq<Row>) {
    passed == [] || passed[0].speaker.None?
    || forall row :: row in passed && row.source == passed[0].source ==> row.speaker.Some?
  }

  predicate Overtakes(row: Row, first: Row) {
    row.source == first.source && first.speaker.Some? && row.speaker.None?
  }

  lemma SourceRanksByPosition(sources: seq<Source>, id: Text)
    requires DistinctSources(sources) && id in Ids(sources)
    ensures id in RankMap(Ids(sources)) && SourceIndex(sources, id) == Some(RankMap(Ids(sources))[id])
  {
    var ids := Ids(sources);
    var i :| 0 <= i < |ids| && ids[i] == id;
    OwnRank(ids, i);
    PositionUnique(ids, i);
  }

  /** The first passing row loses to another one only by its speaker. */
  lemma FirstAgainst(x: Index, query: QueryInput, passed: seq<Row>, i: nat)
    requires OrderedRows(x.rows) && DistinctSources(x.sources)
    requires query.sources.None? && query.users == []
    requires passed == PassedRows(x, query) && 0 < i < |passed|
    ensures var key := SelectKey(Request(query, Ids(x.sources)));
            if Overtakes(passed[i], passed[0]) then KeyLess(key(passed[i]), key(passed[0]))
            else KeyLess(key(passed[0]), key(passed[i]))
  {
    hide RankMap, Position, CompilerOrder, OrderedRows, DistinctSources, Less;
    var ordered, passes := TermRows(x, query.term), Passes(query, Ids(x.sources));
    TermRowsOrdered(x, query.term);
    KeepSorted(ordered, passes, FlushKey(x.sources));
    KeepDistinct(ordered, passes, FlushKey(x.sources));
    KeepMembers(ordered, passes, passed[0]);
    KeepMembers(ordered, passes, passed[i]);
    assert passed[0] in passed && passed[i] in passed;
    assert Admits(Request(query, Ids(x.sources)))(passed[0]);
    assert Admits(Request(query, Ids(x.sources)))(passed[i]);
    hide Keep;
    SourceRanksByPosition(x.sources, passed[0].source);
    SourceRanksByPosition(x.sources, passed[i].source);
    NoRanks();
    KeyLessTotal(FlushKey(x.sources)(passed[0]), FlushKey(x.sources)(passed[i]));
    assert KeyLess(FlushKey(x.sources)(passed[0]), FlushKey(x.sources)(passed[i]));
    RanksDistinguishFirst(x.sources, passed[0].source, passed[i].source);
  }

  lemma RanksDistinguishFirst(sources: seq<Source>, a: Text, b: Text)
    requires a in RankMap(Ids(sources)) && b in RankMap(Ids(sources))
    ensures RankMap(Ids(sources))[a] == RankMap(Ids(sources))[b] ==> a == b
  {
    if RankMap(Ids(sources))[a] == RankMap(Ids(sources))[b] {
      RanksDistinguish(Ids(sources), a, b);
    }
  }

  /**
   * Without requested sources or users, `best_candidate` returns the head of `candidates` exactly
   * when the first row it meets is speakerless or meets no speakerless row of its own source.
   */
  lemma FastPathExact(x: Index, query: QueryInput)
    requires OrderedRows(x.rows) && DistinctSources(x.sources)
    requires query.sources.None? && query.users == []
    ensures BestRow(x, query) == Head(SelectedFor(x, query)) <==> FirstIsBest(PassedRows(x, query))
  {
    hide KeyLess, SelectKey, PassedRows, SelectedFor, OrderedRows, DistinctSources, SortByKey;
    var passed, key := PassedRows(x, query), SelectKey(Request(query, Ids(x.sources)));
    PassedSelect(x, query);
    if passed != [] {
      var first, head := passed[0], SortByKey(passed, key)[0];
      forall i | 0 < i < |passed|
        ensures if Overtakes(passed[i], first) then head != first else head != passed[i]
      {
        FirstAgainst(x, query, passed, i);
        HeadLeast(passed, key, first);
        HeadLeast(passed, key, passed[i]);
      }
      HeadLeast(passed, key, first);
      var at :| 0 <= at < |passed| && passed[at] == head;
    }
  }

  /** A concrete term whose fast answer is not the head of its candidates. */
  lemma FastPathDiffers(source: Source)
    ensures var spoken := Row(1, [97], None, source.id, Some([98]), None, [99]);
            var plain := Row(2, [97], Some([100]), source.id, None, None, [101]);
            var x := Index(Tables([], [], [], [], [], [], []), [], [spoken, plain], [source], []);
            var query := QueryInput([97], None, None, []);
            && OrderedRows(x.rows)
            && BestRow(x, query) == Some(spoken) && Head(SelectedFor(x, query)) != Some(spoken)
  {
    var spoken := Row(1, [97], None, source.id, Some([98]), None, [99]);
    var plain := Row(2, [97], Some([100]), source.id, None, None, [101]);
    var x := Index(Tables([], [], [], [], [], [], []), [], [spoken, plain], [source], []);
    var query := QueryInput([97], None, None, []);
    LessIrreflexive([97]);
    PassedOfTwo(x, query, spoken, plain);
    FastPathExact(x, query);
  }

  lemma PassedOfTwo(x: Index, query: QueryInput, spoken: Row, plain: Row)
    requires x.rows == [spoken, plain] && |x.sources| == 1
    requires query == QueryInput([97], None, None, [])
    requires spoken.expression == plain.expression == [97] && spoken.id == 1 && plain.id == 2
    requires spoken.source == plain.source == x.sources[0].id
    requires spoken.reading == None && plain.reading.Some?
    ensures PassedRows(x, query) == [spoken, plain]
  {
    var rows, key := [spoken, plain], FlushKey(x.sources);
    KeepBoth(spoken, plain, OfTerm([97]));
    TwoSorted(x.sources, spoken, plain);
    hide SortByKey, FlushKey;
    assert Ids(x.sources)[0] == spoken.source;
    AllPass(query, Ids(x.sources), spoken);
    AllPass(query, Ids(x.sources), plain);
    hide Passes, FlushKey, SortByKey, Keep, OfTerm;
    KeepBoth(spoken, plain, Passes(query, Ids(x.sources)));
  }

  lemma TwoSorted(sources: seq<Source>, spoken: Row, plain: Row)
    requires |sources| == 1 && spoken.source == plain.source == sources[0].id
    requires spoken.reading == None && plain.reading.Some?
    ensures SortByKey([spoken, plain], FlushKey(sources)) == [spoken, plain]
  {
    var rows, key := [spoken, plain], FlushKey(sources);
    assert Sorted(rows, key) && DistinctKeys(rows, key);
    hide KeyLess, SourceIndex;
    SortSorted(rows, key);
    SortMultiset(rows, key);
    SortedUnique(rows, SortByKey(rows, key), key);
  }

  lemma AllPass(query: QueryInput, ids: seq<Text>, row: Row)
    requires row.source in ids && query == QueryInput(query.term, None, None, [])
    ensures Passes(query, ids)(row)
  {
    var request := Request(query, ids);
    assert request.sources == ids && request.users == [];
    assert Admits(request)(row) && MatchesReading(query.reading)(row);
  }

  lemma KeepBoth(a: Row, b: Row, p: Row -> bool)
    requires p(a) && p(b)
    ensures Keep([a, b], p) == [a, b]
  {
    KeepAppend([], a, p);
    KeepAppend([a], b, p);
    assert [] + [a] == [a] && [a] + [b] == [a, b];
  }

  /* ---- The whole path from rows to answers. ---- */

  /**
   * The file written for a compiled index opens, passes every check, and is ready to answer:
   * together with `Candidates` and `BestCandidate`, compilation preserves what the rows mean.
   */
  lemma CompiledFileServes(
    bytes: seq<byte>, x: Index, hash: Hash, seeded: Seeded, checksum: seq<byte> -> seq<byte>, verify: bool,
    packLength: nat)
    requires CompiledFrom(x.t, x.keys, x.rows, x.sources, x.assets, hash, seeded)
    requires GoodAssets(x.assets, |x.sources|) && WithinPack(x.assets, packLength)
    requires DistinctSources(x.sources) && OrderedRows(x.rows)
    requires forall text :: hash(text) < U64_LIMIT
    requires |x.t.strings| < NONE_REF && TotalLength(x.t) < U64_LIMIT
    requires Written(bytes, x.t, checksum)
    ensures ParseHeader(bytes, verify, checksum).Ok?
    ensures var b := Bundle(bytes, ParseHeader(bytes, verify, checksum).value, packLength, Ids(x.sources));
            Opened(b, x, hash, seeded) && ValidStructure(b, hash, seeded)
  {
    hide CompiledTerms, CompiledFrom, SoundTables, ValidStructure, Decodes, Written, ParseHeader, Layout.Fits,
      OrderedRows, DistinctSources, WithinPack;
    CompiledFits(x.t, x.keys, x.rows, x.sources, x.assets, hash, seeded);
    CompiledSound(x.t, x.keys, x.rows, x.sources, x.assets, hash, seeded, packLength);
    WrittenDecodes(bytes, x.t, checksum, verify, packLength, Ids(x.sources));
    var b := Bundle(bytes, ParseHeader(bytes, verify, checksum).value, packLength, Ids(x.sources));
    CompiledStructureValid(b, x.t, x.keys, hash, seeded);
  }
}
