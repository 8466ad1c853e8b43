/** Serving from a finished pack: `AudioPack.get` and `view` on the row-id index. */
module PackIndex {
  import opened Wrappers
  import opened Text
  import LittleEndian
  import opened Groups
  import opened PackBuilder
  import opened Resume

  datatype PackedAudio = PackedAudio(audioId: nat, offset: nat, length: nat, mime: nat)

  /** An opened pack; imported packs have `minimumOffset` 0, built ones start after the header. */
  datatype AudioPack = AudioPack(index: seq<Record>, pack: seq<byte>, minimumOffset: nat) {
    /** `get`. */
    function Get(audioId: int): Option<PackedAudio> {
      if audioId < 0 || audioId > |index| - 1 then None
      else
        var record := index[audioId];
        if record.flags % 2 == 0 || !(1 <= record.mime <= 6) || record.length == 0
           || record.offset < minimumOffset || record.offset + record.length > |pack|
        then None
        else Some(PackedAudio(audioId, record.offset, record.length, record.mime))
    }

    /** `view`: a slice of the pack, cut off at its end. */
    function View(audio: PackedAudio, start: nat, length: nat): seq<byte> {
      var from := audio.offset + start;
      if from >= |pack| then []
      else if from + length > |pack| then pack[from..]
      else pack[from..from + length]
    }
  }

  function Finished(b: Building): AudioPack {
    AudioPack(b.index, b.pack, PACK_HEADER_SIZE)
  }

  /** A restore of the finished files retraces every prefix, so its links hold there. */
  lemma PrefixLinked(size: nat, groups: seq<Group>, i: nat, env: Setting) returns (r: Restoring)
    requires GoodGroups(groups) && InRange(groups, size) && GoodSetting(env) && i <= |groups|
    ensures Linked(r, Fold(size, groups[..i], env), env)
  {
    hide Linked, GoodGroups, InRange, RestoreAll, Fold;
    var b := Fold(size, groups, env);
    assert groups[..|groups|] == groups;
    RestoreTracesFold(b.index, b.pack, groups, i, |groups|, size, env);
    r := RestoreAll(groups[..i], b.index, b.pack, |b.pack|, env).value;
  }

  /** The record left for a readable group points at its bytes. */
  lemma RecordServes(r: Restoring, b: Building, result: ReadResult, env: Setting)
    requires Linked(r, b, env) && result.data.Some? && |result.data.value| > 0
    requires result.digest == env.digest(result.data.value)
    ensures var left := RecordLeft(b, result);
            && left.offset >= PACK_HEADER_SIZE && left.length == |result.data.value|
            && Slice(Consumed(b, result).pack, left.offset, left.length) == result.data
  {
    hide Linked, FindCopy;
    var data := result.data.value;
    if FindCopy(b.pack, Refs(b.dedupe, (result.digest, |data|)), data).Some? {
      var reference := KnownRef(r, b, result, env);
    } else {
      EndIsNew(r, b, |data|, env);
      assert Consumed(b, result).pack[|b.pack|..|b.pack| + |data|] == data;
    }
  }

  /**
   * The row-id index serves the right bytes: a row of a readable file gets exactly that file, with
   * its type, and its range lies inside the pack.
   */
  lemma ReadableRowServed(size: nat, groups: seq<Group>, i: nat, id: nat, env: Setting)
    requires GoodGroups(groups) && InRange(groups, size) && GoodSetting(env)
    requires i < |groups| && id in groups[i].ids && Readable(groups[i].key, env)
    ensures var pack := Finished(Fold(size, groups, env));
            var audio := pack.Get(id);
            && audio.Some? && audio.value.mime == env.files(groups[i].key).mime
            && Some(pack.View(audio.value, 0, audio.value.length)) == env.files(groups[i].key).content
            && audio.value.offset + audio.value.length <= |pack.pack|
  {
    hide Linked, RecordLeft, Consumed, FoldFrom, FindCopy;
    var b, result := Fold(size, groups[..i], env), ReadGroup(groups[i], env);
    assert groups[..|groups|] == groups;
    RecordStays(size, groups, i, |groups|, id, env);
    var r := PrefixLinked(size, groups, i, env);
    RecordServes(r, b, result, env);
    LeftIsValid(b, result);
    FoldStep(size, groups, i, env);
    PackGrows(size, groups, i + 1, |groups|, env);
    var left := RecordLeft(b, result);
    SliceLonger(Consumed(b, result).pack, Fold(size, groups, env).pack, left.offset, left.length);
  }

  /** Any part of a readable row's audio is that part of its file. */
  lemma PartServed(size: nat, groups: seq<Group>, i: nat, id: nat, env: Setting, start: nat, length: nat)
    requires GoodGroups(groups) && InRange(groups, size) && GoodSetting(env)
    requires i < |groups| && id in groups[i].ids && Readable(groups[i].key, env)
    requires start + length <= |env.files(groups[i].key).content.value|
    ensures var pack := Finished(Fold(size, groups, env));
            && pack.Get(id).Some?
            && pack.View(pack.Get(id).value, start, length)
               == env.files(groups[i].key).content.value[start..start + length]
  {
    ReadableRowServed(size, groups, i, id, env);
    hide Fold, GoodGroups, InRange;
    var pack := Finished(Fold(size, groups, env));
    PartOfView(pack, pack.Get(id).value, start, length);
  }

  lemma PartOfView(pack: AudioPack, audio: PackedAudio, start: nat, length: nat)
    requires audio.offset + audio.length <= |pack.pack| && start + length <= audio.length
    ensures pack.View(audio, start, length) == pack.View(audio, 0, audio.length)[start..start + length]
  {
  }

  lemma LeftIsValid(b: Building, result: ReadResult)
    ensures result.data.Some? ==>
              RecordLeft(b, result).flags == RECORD_VALID && RecordLeft(b, result).mime == result.mime
    ensures result.data.None? ==> RecordLeft(b, result) == EMPTY
  {
  }

  /** Every other non-negative id, and every negative one, is answered with nothing. */
  lemma OtherRowsNotServed(size: nat, groups: seq<Group>, id: int, env: Setting)
    requires GoodGroups(groups) && InRange(groups, size) && GoodSetting(env)
    requires forall i :: 0 <= i < |groups| && id >= 0 && id in groups[i].ids ==> !Readable(groups[i].key, env)
    ensures Finished(Fold(size, groups, env)).Get(id) == None
  {
    hide Linked, RecordLeft, Consumed, FoldFrom, FindCopy;
    assert groups[..|groups|] == groups && groups[..0] == [];
    if 0 <= id < size {
      if i :| 0 <= i < |groups| && id in groups[i].ids {
        RecordStays(size, groups, i, |groups|, id, env);
        LeftIsValid(Fold(size, groups[..i], env), ReadGroup(groups[i], env));
      } else {
        RecordUntouchedFromStart(size, groups, |groups|, id, env);
      }
    }
  }

  lemma {:induction false} RecordUntouchedFromStart(size: nat, groups: seq<Group>, k: nat, id: nat, env: Setting)
    requires k <= |groups| && id < size
    requires forall i :: 0 <= i < k ==> id !in groups[i].ids
    ensures Fold(size, groups[..k], env).index[id] == EMPTY
  {
    hide RecordLeft, Consumed, ReadGroup;
    if k > 0 {
      FoldStep(size, groups, k - 1, env);
      ConsumedRecords(Fold(size, groups[..k - 1], env), ReadGroup(groups[k - 1], env), id);
      RecordUntouchedFromStart(size, groups, k - 1, id, env);
    }
  }

  /* ---- Deduplication. ---- */

  /** Entries of one digest and length hold different bytes. */
  ghost predicate NoTwins(b: Building) {
    forall key, i, j :: key in b.dedupe && 0 <= i < j < |b.dedupe[key]| ==>
      Slice(b.pack, b.dedupe[key][i].offset, b.dedupe[key][i].length)
      != Slice(b.pack, b.dedupe[key][j].offset, b.dedupe[key][j].length)
  }

  /** The dedupe table has an entry for these bytes at this offset. */
  ghost predicate HasCopy(b: Building, key: (seq<byte>, nat), data: seq<byte>, offset: nat) {
    exists i :: 0 <= i < |Refs(b.dedupe, key)| && Refs(b.dedupe, key)[i].offset == offset
                && Slice(b.pack, Refs(b.dedupe, key)[i].offset, Refs(b.dedupe, key)[i].length) == Some(data)
  }

  lemma RefsInPack(r: Restoring, b: Building, key: (seq<byte>, nat), i: nat, env: Setting)
    requires Linked(r, b, env) && i < |Refs(b.dedupe, key)|
    ensures Slice(b.pack, Refs(b.dedupe, key)[i].offset, Refs(b.dedupe, key)[i].length).Some?
  {
    hide LinkedRef, Slice;
    var ref := Refs(b.dedupe, key)[i];
    assert LinkedRef(r, b, key, ref, env);
    LinkedRefFacts(r, b, key, ref, env);
  }

  lemma TwinsStayApart(r: Restoring, b: Building, result: ReadResult, env: Setting)
    requires Linked(r, b, env) && NoTwins(b)
    ensures NoTwins(Consumed(b, result))
  {
    hide Linked, Slice;
    var after := Consumed(b, result);
    PackOnlyGrows(b, result);
    forall key, i | key in b.dedupe && 0 <= i < |b.dedupe[key]|
      ensures Slice(after.pack, b.dedupe[key][i].offset, b.dedupe[key][i].length)
           == Slice(b.pack, b.dedupe[key][i].offset, b.dedupe[key][i].length)
           && Slice(b.pack, b.dedupe[key][i].offset, b.dedupe[key][i].length).Some?
    {
      RefsInPack(r, b, key, i, env);
      SliceLonger(b.pack, after.pack, b.dedupe[key][i].offset, b.dedupe[key][i].length);
    }
    if result.data.Some? {
      AppendedSlice(b.pack, result.data.value);
    }
  }

  lemma AppendedSlice(pack: seq<byte>, data: seq<byte>)
    ensures Slice(pack + data, |pack|, |data|) == Some(data)
  {
    assert (pack + data)[|pack|..|pack| + |data|] == data;
  }

  lemma {:induction false} PrefixNoTwins(size: nat, groups: seq<Group>, k: nat, env: Setting)
    requires GoodGroups(groups) && InRange(groups, size) && GoodSetting(env) && k <= |groups|
    ensures NoTwins(Fold(size, groups[..k], env))
  {
    hide Linked, Consumed, ReadGroup, GoodGroups, InRange, NoTwins;
    if k == 0 {
      StartNoTwins(size, groups, env);
    } else {
      PrefixNoTwins(size, groups, k - 1, env);
      var r := PrefixLinked(size, groups, k - 1, env);
      FoldStep(size, groups, k - 1, env);
      TwinsStayApart(r, Fold(size, groups[..k - 1], env), ReadGroup(groups[k - 1], env), env);
    }
  }

  lemma StartNoTwins(size: nat, groups: seq<Group>, env: Setting)
    ensures NoTwins(Fold(size, groups[..0], env))
  {
  }

  lemma CopyStays(b: Building, result: ReadResult, key: (seq<byte>, nat), data: seq<byte>, offset: nat)
    requires HasCopy(b, key, data, offset)
    ensures HasCopy(Consumed(b, result), key, data, offset)
  {
    hide FindCopy, Slice;
    var after := Consumed(b, result);
    PackOnlyGrows(b, result);
    var i :| 0 <= i < |Refs(b.dedupe, key)| && Refs(b.dedupe, key)[i].offset == offset
             && Slice(b.pack, Refs(b.dedupe, key)[i].offset, Refs(b.dedupe, key)[i].length) == Some(data);
    SliceLonger(b.pack, after.pack, Refs(b.dedupe, key)[i].offset, Refs(b.dedupe, key)[i].length);
    assert Refs(after.dedupe, key)[i] == Refs(b.dedupe, key)[i];
  }

  /** Consuming a readable group leaves a copy at the offset of its record. */
  lemma CopyMade(b: Building, result: ReadResult)
    requires result.data.Some?
    ensures HasCopy(Consumed(b, result), (result.digest, |result.data.value|), result.data.value,
                    RecordLeft(b, result).offset)
  {
    hide Slice;
    var data := result.data.value;
    var key := (result.digest, |data|);
    var after := Consumed(b, result);
    AppendedSlice(b.pack, data);
    if FindCopy(b.pack, Refs(b.dedupe, key), data).None? {
      assert Refs(after.dedupe, key)[|Refs(b.dedupe, key)|] == PackRef(|b.pack|, |data|);
    }
  }

  lemma {:induction false} CopyKept(size: nat, groups: seq<Group>, i: nat, k: nat, env: Setting)
    requires i < k <= |groups| && Readable(groups[i].key, env)
    ensures var result := ReadGroup(groups[i], env);
            HasCopy(Fold(size, groups[..k], env), (result.digest, |result.data.value|), result.data.value,
                    RecordLeft(Fold(size, groups[..i], env), result).offset)
    decreases k
  {
    hide HasCopy, Consumed, RecordLeft, FoldFrom;
    FoldStep(size, groups, k - 1, env);
    var result := ReadGroup(groups[i], env);
    if i == k - 1 {
      CopyMade(Fold(size, groups[..i], env), result);
    } else {
      CopyKept(size, groups, i, k - 1, env);
      CopyStays(Fold(size, groups[..k - 1], env), ReadGroup(groups[k - 1], env),
                (result.digest, |result.data.value|), result.data.value,
                RecordLeft(Fold(size, groups[..i], env), result).offset);
    }
  }

  lemma CopyIsUnique(b: Building, key: (seq<byte>, nat), data: seq<byte>, offset: nat)
    requires NoTwins(b) && HasCopy(b, key, data, offset)
    ensures FindCopy(b.pack, Refs(b.dedupe, key), data) == Some(offset)
  {
    hide Slice;
    var refs := Refs(b.dedupe, key);
    var i :| 0 <= i < |refs| && refs[i].offset == offset && Slice(b.pack, refs[i].offset, refs[i].length) == Some(data);
    var found := FindCopy(b.pack, refs, data);
    var j :| 0 <= j < |refs| && refs[j].offset == found.value
      && Slice(b.pack, refs[j].offset, refs[j].length) == Some(data);
    assert i == j;
  }

  /** Files with the same bytes are stored once, whatever their digests collide with. */
  lemma EqualFilesStoredOnce(size: nat, groups: seq<Group>, i: nat, j: nat, env: Setting)
    requires GoodGroups(groups) && InRange(groups, size) && GoodSetting(env) && i < j < |groups|
    requires Readable(groups[i].key, env) && Readable(groups[j].key, env)
    requires env.files(groups[i].key).content == env.files(groups[j].key).content
    ensures RecordLeft(Fold(size, groups[..j], env), ReadGroup(groups[j], env)).offset
         == RecordLeft(Fold(size, groups[..i], env), ReadGroup(groups[i], env)).offset
  {
    hide NoTwins, HasCopy, Fold, GoodGroups, InRange;
    var data := ReadGroup(groups[i], env).data.value;
    var offset := RecordLeft(Fold(size, groups[..i], env), ReadGroup(groups[i], env)).offset;
    CopyKept(size, groups, i, j, env);
    PrefixNoTwins(size, groups, j, env);
    CopyIsUnique(Fold(size, groups[..j], env), (env.digest(data), |data|), data, offset);
  }

  /* ---- The counters. ---- */

  function RowCount(groups: seq<Group>): nat {
    if groups == [] then 0 else RowCount(groups[..|groups| - 1]) + |groups[|groups| - 1].ids|
  }

  function ReadableCount(groups: seq<Group>, env: Setting): nat {
    if groups == [] then 0
    else ReadableCount(groups[..|groups| - 1], env) + (if Readable(groups[|groups| - 1].key, env) then 1 else 0)
  }

  function ReadableRows(groups: seq<Group>, env: Setting): nat {
    if groups == [] then 0
    else ReadableRows(groups[..|groups| - 1], env)
         + (if Readable(groups[|groups| - 1].key, env) then |groups[|groups| - 1].ids| else 0)
  }

  function ReadableBytes(groups: seq<Group>, env: Setting): nat {
    if groups == [] then 0
    else ReadableBytes(groups[..|groups| - 1], env)
         + (if Readable(groups[|groups| - 1].key, env) then |env.files(groups[|groups| - 1].key).content.value| else 0)
  }

  /** Every path is unique, a duplicate or missing; every byte is stored or saved. */
  lemma {:induction false} CountersAddUp(size: nat, groups: seq<Group>, env: Setting)
    ensures var b := Fold(size, groups, env);
            && b.counters.paths == |groups| && b.counters.rows == RowCount(groups)
            && b.counters.readable == ReadableCount(groups, env)
            && b.counters.readable + b.counters.missing == b.counters.paths
            && b.counters.unique + b.counters.duplicates == b.counters.readable
            && b.counters.valid == ReadableRows(groups, env)
            && |b.pack| + b.counters.saved == PACK_HEADER_SIZE + ReadableBytes(groups, env)
  {
    if groups != [] {
      var front, last := groups[..|groups| - 1], groups[|groups| - 1];
      CountersAddUp(size, front, env);
      assert groups == front + [last];
      FoldFromAppend(Start(size, env), front, last, env);
      CountersStep(Fold(size, front, env), ReadGroup(last, env));
      hide Consumed, ReadGroup, FoldFrom;
    }
  }

  lemma CountersStep(b: Building, result: ReadResult)
    ensures var c, d := b.counters, Consumed(b, result).counters;
            && d.paths == c.paths + 1 && d.rows == c.rows + |result.group.ids|
            && d.readable == c.readable + (if result.data.Some? then 1 else 0)
            && d.missing == c.missing + (if result.data.Some? then 0 else 1)
            && d.valid == c.valid + (if result.data.Some? then |result.group.ids| else 0)
            && d.unique + d.duplicates == c.unique + c.duplicates + (if result.data.Some? then 1 else 0)
            && |Consumed(b, result).pack| + d.saved
               == |b.pack| + c.saved + (if result.data.Some? then |result.data.value| else 0)
  {
    hide FindCopy, Stamp, Refs;
  }

  /** The different contents among the readable files. */
  ghost function Contents(groups: seq<Group>, env: Setting): set<seq<byte>> {
    set k | 0 <= k < |groups| && Readable(groups[k].key, env) :: env.files(groups[k].key).content.value
  }

  lemma ContentsNext(groups: seq<Group>, last: Group, env: Setting)
    ensures Contents(groups + [last], env)
         == Contents(groups, env) + if Readable(last.key, env) then {env.files(last.key).content.value} else {}
  {
    var all := groups + [last];
    assert all[|groups|] == last && forall k :: 0 <= k < |groups| ==> all[k] == groups[k];
    forall content | content in Contents(groups, env) ensures content in Contents(all, env) {
      var k :| 0 <= k < |groups| && Readable(groups[k].key, env) && env.files(groups[k].key).content.value == content;
      assert Readable(all[k].key, env);
    }
    if Readable(last.key, env) {
      assert Readable(all[|groups|].key, env);
    }
  }

  /** Every entry of the dedupe table points at one of these contents. */
  ghost predicate RefersTo(b: Building, contents: set<seq<byte>>) {
    forall key, i :: key in b.dedupe && 0 <= i < |b.dedupe[key]| ==>
      var found := Slice(b.pack, b.dedupe[key][i].offset, b.dedupe[key][i].length);
      found.Some? && found.value in contents
  }

  lemma RefersNext(b: Building, result: ReadResult, contents: set<seq<byte>>)
    requires RefersTo(b, contents)
    ensures RefersTo(Consumed(b, result), contents + if result.data.Some? then {result.data.value} else {})
  {
    hide Slice;
    var after := Consumed(b, result);
    PackOnlyGrows(b, result);
    forall key, i | key in b.dedupe && 0 <= i < |b.dedupe[key]|
      ensures Slice(after.pack, b.dedupe[key][i].offset, b.dedupe[key][i].length)
           == Slice(b.pack, b.dedupe[key][i].offset, b.dedupe[key][i].length)
    {
      SliceLonger(b.pack, after.pack, b.dedupe[key][i].offset, b.dedupe[key][i].length);
    }
    if result.data.Some? {
      AppendedSlice(b.pack, result.data.value);
    }
  }

  ghost predicate FoundIfSeen(b: Building, data: seq<byte>, contents: set<seq<byte>>, env: Setting) {
    FindCopy(b.pack, Refs(b.dedupe, (env.digest(data), |data|)), data).Some? <==> data in contents
  }

  /** A copy is found exactly of what an earlier readable file had. */
  lemma CopyMeansSeen(size: nat, groups: seq<Group>, k: nat, data: seq<byte>, env: Setting)
    requires k <= |groups| && RefersTo(Fold(size, groups[..k], env), Contents(groups[..k], env))
    ensures FoundIfSeen(Fold(size, groups[..k], env), data, Contents(groups[..k], env), env)
  {
    var b := Fold(size, groups[..k], env);
    var key := (env.digest(data), |data|);
    if data in Contents(groups[..k], env) {
      var i :| 0 <= i < k && Readable(groups[..k][i].key, env) && env.files(groups[..k][i].key).content.value == data;
      CopyKept(size, groups, i, k, env);
      hide Slice, FoldFrom;
      assert HasCopy(b, key, data, RecordLeft(Fold(size, groups[..i], env), ReadGroup(groups[i], env)).offset);
    } else {
      hide Slice, FoldFrom;
    }
  }

  /** The counters of stored and repeated files after some groups. */
  ghost predicate StoredOnce(b: Building, groups: seq<Group>, env: Setting) {
    && RefersTo(b, Contents(groups, env))
    && b.counters.unique == |Contents(groups, env)|
    && |b.pack| == PACK_HEADER_SIZE + TextBytes(Contents(groups, env))
  }

  /** A file is either stored, which makes it unique, or found. */
  lemma StoresOrFinds(b: Building, result: ReadResult)
    ensures var after := Consumed(b, result);
            match result.data
            case None => after.counters.unique == b.counters.unique && after.pack == b.pack
            case Some(data) =>
              if FindCopy(b.pack, Refs(b.dedupe, (result.digest, |data|)), data).Some?
              then after.counters.unique == b.counters.unique && after.pack == b.pack
              else after.counters.unique == b.counters.unique + 1 && |after.pack| == |b.pack| + |data|
  {
    hide FindCopy, Stamp, Refs;
  }

  lemma SameContents(contents: set<seq<byte>>, data: seq<byte>)
    requires data in contents
    ensures contents + {data} == contents
  {
  }

  lemma NewContent(contents: set<seq<byte>>, data: seq<byte>)
    requires data !in contents
    ensures |contents + {data}| == |contents| + 1
    ensures TextBytes(contents + {data}) == TextBytes(contents) + |data|
  {
    hide TextBytes;
    TextBytesAdd(contents, data);
  }

  lemma StoredOnceNext(b: Building, groups: seq<Group>, last: Group, env: Setting)
    requires StoredOnce(b, groups, env)
    requires Readable(last.key, env) ==> FoundIfSeen(b, env.files(last.key).content.value, Contents(groups, env), env)
    ensures StoredOnce(Consumed(b, ReadGroup(last, env)), groups + [last], env)
  {
    ContentsNext(groups, last, env);
    RefersNext(b, ReadGroup(last, env), Contents(groups, env));
    StoresOrFinds(b, ReadGroup(last, env));
    hide Contents, RefersTo, FindCopy, Refs, TextBytes, Consumed, ReadGroup;
    if Readable(last.key, env) {
      var contents, data := Contents(groups, env), env.files(last.key).content.value;
      if data in contents { SameContents(contents, data); } else { NewContent(contents, data); }
    } else {
      assert Contents(groups, env) + {} == Contents(groups, env);
    }
  }

  lemma NothingStored(size: nat, groups: seq<Group>, env: Setting)
    ensures StoredOnce(Fold(size, groups[..0], env), groups[..0], env)
  {
    assert Contents(groups[..0], env) == {};
  }

  lemma {:induction false} PrefixStoredOnce(size: nat, groups: seq<Group>, k: nat, env: Setting)
    requires k <= |groups|
    ensures StoredOnce(Fold(size, groups[..k], env), groups[..k], env)
  {
    hide Consumed, ReadGroup, TextBytes;
    if k == 0 {
      NothingStored(size, groups, env);
    } else {
      PrefixStoredOnce(size, groups, k - 1, env);
      FoldStep(size, groups, k - 1, env);
      var last := groups[k - 1];
      if Readable(last.key, env) {
        CopyMeansSeen(size, groups, k - 1, env.files(last.key).content.value, env);
      }
      assert groups[..k] == groups[..k - 1] + [last];
      hide Fold, StoredOnce, Contents, FoundIfSeen;
      StoredOnceNext(Fold(size, groups[..k - 1], env), groups[..k - 1], last, env);
    }
  }

  /**
   * `unique_files` counts the different contents and `content_duplicates` the other readable files;
   * the pack holds each content once. Colliding digests make no difference.
   */
  lemma UniqueFilesCounted(size: nat, groups: seq<Group>, env: Setting)
    ensures var b, contents := Fold(size, groups, env), Contents(groups, env);
            && b.counters.unique == |contents|
            && b.counters.duplicates == ReadableCount(groups, env) - |contents|
            && |b.pack| == PACK_HEADER_SIZE + TextBytes(contents)
            && b.counters.saved == ReadableBytes(groups, env) - TextBytes(contents)
  {
    hide FoldFrom, TextBytes;
    assert groups[..|groups|] == groups;
    PrefixStoredOnce(size, groups, |groups|, env);
    CountersAddUp(size, groups, env);
  }

  /* ---- The version. ---- */

  /** The readable files in order, each under its key with its digest. */
  function Named(groups: seq<Group>, env: Setting): seq<(AudioKey, seq<byte>)> {
    if groups == [] then []
    else
      var last := groups[|groups| - 1];
      Named(groups[..|groups| - 1], env)
      + if Readable(last.key, env) then [(last.key, env.digest(env.files(last.key).content.value))] else []
  }

  function VersionEntry(key: AudioKey, digest: seq<byte>): seq<byte> {
    key.source + [0] + (key.file + [0] + digest)
  }

  /** What is hashed for these files, from the first to the last. */
  function VersionInput(named: seq<(AudioKey, seq<byte>)>): seq<byte> {
    if named == [] then [] else VersionEntry(named[0].0, named[0].1) + VersionInput(named[1..])
  }

  lemma {:induction false} VersionInputNext(named: seq<(AudioKey, seq<byte>)>, key: AudioKey, digest: seq<byte>)
    ensures VersionInput(named + [(key, digest)]) == VersionInput(named) + VersionEntry(key, digest)
  {
    hide VersionEntry;
    var all := named + [(key, digest)];
    if named == [] {
      assert all[1..] == [];
    } else {
      assert all[1..] == named[1..] + [(key, digest)] && all[0] == named[0];
      VersionInputNext(named[1..], key, digest);
    }
  }

  lemma ConsumedVersion(b: Building, result: ReadResult)
    ensures Consumed(b, result).version
         == b.version + if result.data.Some? then VersionEntry(result.group.key, result.digest) else []
  {
    hide FindCopy, Stamp, Refs;
    var key := result.group.key;
    assert b.version + key.source + [0] + key.file + [0] + result.digest
        == b.version + VersionEntry(key, result.digest);
  }

  lemma {:induction false} VersionIsOfNamed(size: nat, groups: seq<Group>, env: Setting)
    ensures Fold(size, groups, env).version == env.stamp + VersionInput(Named(groups, env))
  {
    if groups == [] {
      assert env.stamp + [] == env.stamp;
    } else {
      var front, last := groups[..|groups| - 1], groups[|groups| - 1];
      assert groups == front + [last];
      VersionIsOfNamed(size, front, env);
      FoldFromAppend(Start(size, env), front, last, env);
      ConsumedVersion(Fold(size, front, env), ReadGroup(last, env));
      hide FoldFrom, Consumed, VersionInput, VersionEntry;
      if Readable(last.key, env) {
        var digest := env.digest(env.files(last.key).content.value);
        VersionInputNext(Named(front, env), last.key, digest);
        NamedNext(groups, env);
        hide *;
        LittleEndian.Associate(env.stamp, VersionInput(Named(front, env)), VersionEntry(last.key, digest));
      } else {
        assert Named(groups, env) == Named(front, env);
      }
    }
  }

  lemma NamedNext(groups: seq<Group>, env: Setting)
    requires groups != [] && Readable(groups[|groups| - 1].key, env)
    ensures var key := groups[|groups| - 1].key;
            Named(groups, env)
            == Named(groups[..|groups| - 1], env) + [(key, env.digest(env.files(key).content.value))]
  {
  }

  predicate NulFree(text: Text) {
    0 !in text
  }

  lemma CutAtNul(a: Text, rest: seq<byte>, a': Text, rest': seq<byte>)
    requires NulFree(a) && NulFree(a') && a + [0] + rest == a' + [0] + rest'
    ensures a == a' && rest == rest'
  {
    var all, all' := a + [0] + rest, a' + [0] + rest';
    assert all[|a|] == 0 && all'[|a'|] == 0;
    assert forall k :: 0 <= k < |a| ==> all[k] == a[k];
    assert forall k :: 0 <= k < |a'| ==> all'[k] == a'[k];
    assert |a| == |a'|;
    assert a == all[..|a|] && a' == all'[..|a'|];
    assert rest == all[|a| + 1..] && rest' == all'[|a'| + 1..];
  }

  lemma EntryApart(key: AudioKey, digest: seq<byte>, rest: seq<byte>)
    ensures VersionEntry(key, digest) + rest == key.source + [0] + (key.file + [0] + (digest + rest))
  {
  }

  ghost predicate Legible(named: seq<(AudioKey, seq<byte>)>) {
    forall k :: 0 <= k < |named| ==>
      NulFree(named[k].0.source) && NulFree(named[k].0.file) && |named[k].1| == 32
  }

  lemma {:induction false} VersionInputInjective(
    named: seq<(AudioKey, seq<byte>)>, other: seq<(AudioKey, seq<byte>)>)
    requires Legible(named) && Legible(other) && VersionInput(named) == VersionInput(other)
    ensures named == other
  {
    if named != [] && other != [] {
      var (key, digest) := named[0];
      var (key', digest') := other[0];
      var rest, rest' := VersionInput(named[1..]), VersionInput(other[1..]);
      EntryApart(key, digest, rest);
      EntryApart(key', digest', rest');
      CutAtNul(key.source, key.file + [0] + (digest + rest), key'.source, key'.file + [0] + (digest' + rest'));
      CutAtNul(key.file, digest + rest, key'.file, digest' + rest');
      assert digest == (digest + rest)[..32] && digest' == (digest' + rest')[..32];
      assert rest == (digest + rest)[32..] && rest' == (digest' + rest')[32..];
      VersionInputInjective(named[1..], other[1..]);
      assert named == [named[0]] + named[1..] && other == [other[0]] + other[1..];
    }
  }

  lemma {:induction false} NamedLegible(groups: seq<Group>, env: Setting)
    requires forall k :: 0 <= k < |groups| ==> NulFree(groups[k].key.source) && NulFree(groups[k].key.file)
    requires forall data :: |env.digest(data)| == 32
    ensures Legible(Named(groups, env))
  {
    if groups != [] {
      NamedLegible(groups[..|groups| - 1], env);
    }
  }

  /**
   * Two packs of one database have the same version input if and only if the same files were
   * readable, in the same order and with the same digests.
   */
  lemma VersionIdentifies(size: nat, groups: seq<Group>, env: Setting, later: Setting)
    requires forall k :: 0 <= k < |groups| ==> NulFree(groups[k].key.source) && NulFree(groups[k].key.file)
    requires forall data :: |env.digest(data)| == 32 && |later.digest(data)| == 32
    requires env.stamp == later.stamp
    ensures Fold(size, groups, env).version == Fold(size, groups, later).version
            <==> Named(groups, env) == Named(groups, later)
  {
    hide NulFree, Fold, VersionInput, Named, Legible;
    VersionIsOfNamed(size, groups, env);
    VersionIsOfNamed(size, groups, later);
    NamedLegible(groups, env);
    NamedLegible(groups, later);
    var a, b := VersionInput(Named(groups, env)), VersionInput(Named(groups, later));
    assert a == (env.stamp + a)[|env.stamp|..] && b == (env.stamp + b)[|env.stamp|..];
    if a == b {
      VersionInputInjective(Named(groups, env), Named(groups, later));
    }
  }

  ghost function Served(index: seq<Record>): set<nat> {
    set id | 0 <= id < |index| && index[id].flags % 2 == 1
  }

  function IdSet(ids: seq<nat>): set<nat> {
    set id | id in ids
  }

  lemma {:induction false} IdSetSize(ids: seq<nat>)
    requires DistinctIds(ids)
    ensures |IdSet(ids)| == |ids|
  {
    if ids != [] {
      var front, last := ids[..|ids| - 1], ids[|ids| - 1];
      assert ids == front + [last];
      IdSetSize(front);
      assert IdSet(ids) == IdSet(front) + {last};
    } else {
      assert IdSet(ids) == {};
    }
  }

  /** `valid_rows` is the number of valid records in the index. */
  lemma {:induction false} ValidRowsCounted(size: nat, groups: seq<Group>, env: Setting)
    requires GoodGroups(groups) && InRange(groups, size)
    ensures |Served(Fold(size, groups, env).index)| == Fold(size, groups, env).counters.valid
  {
    if groups == [] {
      assert Served(Start(size, env).index) == {};
    } else {
      var k := |groups| - 1;
      var front, last := groups[..k], groups[k];
      assert groups == front + [last] && groups[..k + 1] == groups;
      assert forall i :: 0 <= i < k ==> front[i] == groups[i];
      ValidRowsCounted(size, front, env);
      FoldStep(size, groups, k, env);
      var b, result := Fold(size, front, env), ReadGroup(last, env);
      forall id | id in last.ids ensures id < size && id !in Served(b.index) {
        RecordUntouchedFromStart(size, groups, k, id, env);
      }
      hide FoldFrom, Fold;
      ConsumeServes(b, result);
    }
  }

  lemma StampServes(index: seq<Record>, ids: seq<nat>, record: Record)
    requires forall id :: id in ids ==> id < |index| && id !in Served(index)
    ensures Served(Stamp(index, ids, record))
         == if record.flags % 2 == 1 then Served(index) + IdSet(ids) else Served(index)
  {
  }

  lemma ConsumeServes(b: Building, result: ReadResult)
    requires DistinctIds(result.group.ids)
    requires forall id :: id in result.group.ids ==> id < |b.index| && id !in Served(b.index)
    requires |Served(b.index)| == b.counters.valid
    ensures |Served(Consumed(b, result).index)| == Consumed(b, result).counters.valid
  {
    IdSetSize(result.group.ids);
    StampServes(b.index, result.group.ids, RecordLeft(b, result));
    CountersStep(b, result);
    assert Consumed(b, result).index == Stamp(b.index, result.group.ids, RecordLeft(b, result));
    LeftIsValid(b, result);
    assert Served(b.index) !! IdSet(result.group.ids);
    hide Served, IdSet, Consumed, RecordLeft, Stamp;
  }
}
