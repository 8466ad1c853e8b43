/** Checkpoints, and rebuilding the builder's memory from the files on disk. */
module Resume {
  import opened Wrappers
  import opened Text
  import opened Sorting
  import opened Groups
  import opened PackBuilder

  datatype Checkpoint = Checkpoint(
    lastKey: Option<AudioKey>, packBytes: nat, counters: Counters, sourcesSha: seq<byte>,
    finalVersion: Option<seq<byte>>)

  /** `write_checkpoint`. */
  function CheckpointOf(b: Building, env: Setting, finalVersion: Option<seq<byte>>): Checkpoint {
    Checkpoint(b.lastKey, |b.pack|, b.counters, env.sha(b.sources), finalVersion)
  }

  /** The locals of `_restore_partial_build`. */
  datatype Restoring = Restoring(
    counters: Counters, dedupe: Dedupe, seen: set<nat>, lengthByOffset: map<nat, nat>,
    digestByRecord: map<PackRef, seq<byte>>, version: seq<byte>, sources: seq<byte>, last: Option<AudioKey>)

  function StartRestoring(env: Setting): Restoring {
    Restoring(NO_COUNTS, map[], {}, map[], map[], env.stamp, [], None)
  }

  /** The record shared by all rows of a group, or the "inconsistent row index" failure. */
  function GroupRecord(index: seq<Record>, ids: seq<nat>): Result<Record> {
    if ids == [] || ids[0] >= |index| then Err("index record is outside the file")
    else if forall id :: id in ids ==> id < |index| && index[id] == index[ids[0]] then Ok(index[ids[0]])
    else Err("checkpoint contains inconsistent row index records")
  }

  /** The digest of a packed range, computed once per record. */
  function DigestOf(r: Restoring, pack: seq<byte>, reference: PackRef, env: Setting): Result<seq<byte>> {
    if reference in r.digestByRecord then Ok(r.digestByRecord[reference])
    else
      match Slice(pack, reference.offset, reference.length)
      case None => Err("checkpoint audio pack is truncated")
      case Some(data) => Ok(env.digest(data))
  }

  function ValidRecord(record: Record, packBytes: nat): Result<()> {
    Ensure(1 <= record.mime <= 6 && 0 < record.length <= MAX_AUDIO_BYTES
           && record.offset >= PACK_HEADER_SIZE && record.offset + record.length <= packBytes,
           "checkpoint contains an invalid packed-audio record")
  }

  /** What a group with packed audio adds. */
  function WithAudio(r: Restoring, group: Group, record: Record, digest: seq<byte>, token: seq<byte>): Restoring {
    var reference, key := PackRef(record.offset, record.length), (digest, record.length);
    var c := r.counters.(paths := r.counters.paths + 1, rows := r.counters.rows + |group.ids|,
                         readable := r.counters.readable + 1, valid := r.counters.valid + |group.ids|);
    var known := record.offset in r.seen;
    Restoring(
      if known then c.(duplicates := c.duplicates + 1, saved := c.saved + record.length)
      else c.(unique := c.unique + 1),
      if known then r.dedupe else r.dedupe[key := Refs(r.dedupe, key) + [reference]],
      r.seen + {record.offset},
      r.lengthByOffset[record.offset := record.length],
      r.digestByRecord[reference := digest],
      r.version + group.key.source + [0] + group.key.file + [0] + digest,
      r.sources + token, Some(group.key))
  }

  /** What a group without readable audio adds. */
  function WithoutAudio(r: Restoring, group: Group, token: seq<byte>): Restoring {
    r.(counters := r.counters.(paths := r.counters.paths + 1, rows := r.counters.rows + |group.ids|,
                               missing := r.counters.missing + 1),
       sources := r.sources + token, last := Some(group.key))
  }

  /** One group of the restore loop. */
  function RestoreGroup(
    r: Restoring, group: Group, index: seq<Record>, pack: seq<byte>, packBytes: nat, env: Setting): Result<Restoring>
  {
    var record :- GroupRecord(index, group.ids);
    var token := env.files(group.key).token;
    if record.flags % 2 == 1 then
      var _ :- ValidRecord(record, packBytes);
      var _ :- Ensure(record.offset in r.lengthByOffset ==> r.lengthByOffset[record.offset] == record.length,
                      "checkpoint reuses a pack offset with another length");
      var digest :- DigestOf(r, pack, PackRef(record.offset, record.length), env);
      Ok(WithAudio(r, group, record, digest, token))
    else
      var _ :- Ensure(record == EMPTY, "checkpoint contains a malformed missing-file record");
      Ok(WithoutAudio(r, group, token))
  }

  function RestoreAll(
    groups: seq<Group>, index: seq<Record>, pack: seq<byte>, packBytes: nat, env: Setting): Result<Restoring>
  {
    if groups == [] then Ok(StartRestoring(env))
    else
      var r :- RestoreAll(groups[..|groups| - 1], index, pack, packBytes, env);
      RestoreGroup(r, groups[|groups| - 1], index, pack, packBytes, env)
  }

  function FinishRestoring(
    restored: Result<Restoring>, index: seq<Record>, pack: seq<byte>, checkpoint: Checkpoint, env: Setting):
    Result<Building>
  {
    var r :- restored;
    var _ :- Ensure(r.last == checkpoint.lastKey, "checkpoint boundary no longer matches entries.db");
    var _ :- Ensure(r.counters == checkpoint.counters, "checkpoint counters do not match its pack/index data");
    var _ :- Ensure(env.sha(r.sources) == checkpoint.sourcesSha, "source audio changed since the pack checkpoint");
    Ok(Building(index, pack, r.dedupe, r.counters, r.version, r.sources, r.last))
  }

  /** `_restore_partial_build` over the rows up to the checkpoint's key. */
  function Restored(
    rows: seq<Entry>, index: seq<Record>, pack: seq<byte>, checkpoint: Checkpoint, env: Setting): Result<Building>
  {
    var groups := GroupsOf(Keep(rows, Within(None, checkpoint.lastKey)));
    FinishRestoring(RestoreAll(groups, index, pack, checkpoint.packBytes, env), index, pack, checkpoint, env)
  }

  lemma RestoreAppend(
    groups: seq<Group>, group: Group, index: seq<Record>, pack: seq<byte>, packBytes: nat, env: Setting)
    ensures var front := RestoreAll(groups, index, pack, packBytes, env);
            RestoreAll(groups + [group], index, pack, packBytes, env)
            == if front.Err? then front else RestoreGroup(front.value, group, index, pack, packBytes, env)
  {
    assert (groups + [group])[..|groups|] == groups;
  }

  lemma {:induction false} RestoreFails(
    groups: seq<Group>, more: seq<Group>, index: seq<Record>, pack: seq<byte>, packBytes: nat, env: Setting)
    requires RestoreAll(groups, index, pack, packBytes, env).Err?
    ensures RestoreAll(groups + more, index, pack, packBytes, env) == RestoreAll(groups, index, pack, packBytes, env)
  {
    hide RestoreGroup, RestoreAll;
    if more == [] {
      assert groups + more == groups;
    } else {
      var front, last := more[..|more| - 1], more[|more| - 1];
      RestoreFails(groups, front, index, pack, packBytes, env);
      assert groups + more == (groups + front) + [last];
      RestoreAppend(groups + front, last, index, pack, packBytes, env);
    }
  }

  /** The loop of `_restore_partial_build`, polled for cancellation before every group. */
  method RestorePartial(
    rows: seq<Entry>, index: seq<Record>, pack: seq<byte>, checkpoint: Checkpoint, env: Setting,
    cancels: nat -> bool)
    returns (cancelled: bool, r: Result<Building>)
    ensures !cancelled ==> r == Restored(rows, index, pack, checkpoint, env)
    ensures cancelled ==> exists poll :: cancels(poll)
    ensures !cancelled && r.Ok? ==>
              forall k :: 0 <= k < |GroupsOf(Keep(rows, Within(None, checkpoint.lastKey)))| ==> !cancels(k)
  {
    hide RestoreGroup, GroupsOf, Keep, Within;
    var groups := GroupRows(rows, None, checkpoint.lastKey);
    var state := StartRestoring(env);
    var k := 0;
    assert groups[..0] == [];
    while k < |groups|
      invariant 0 <= k <= |groups|
      invariant RestoreAll(groups[..k], index, pack, checkpoint.packBytes, env) == Ok(state)
      invariant forall j :: 0 <= j < k ==> !cancels(j)
    {
      if cancels(k) {
        return true, Err("cancelled");
      }
      RestoreAppend(groups[..k], groups[k], index, pack, checkpoint.packBytes, env);
      assert groups[..k + 1] == groups[..k] + [groups[k]];
      var next := RestoreGroup(state, groups[k], index, pack, checkpoint.packBytes, env);
      if next.Err? {
        RestoreFails(groups[..k + 1], groups[k + 1..], index, pack, checkpoint.packBytes, env);
        assert groups == groups[..k + 1] + groups[k + 1..];
        return false, Err(next.message);
      }
      state := next.value;
      k := k + 1;
    }
    assert groups[..k] == groups;
    cancelled := false;
    r := FinishRestoring(Ok(state), index, pack, checkpoint, env);
  }

  /* ---- Reconstruction is exact. ---- */

  /** What the restore loop knows after the groups the builder had consumed. */
  ghost predicate Linked(r: Restoring, b: Building, env: Setting) {
    && r.counters == b.counters && r.dedupe == b.dedupe && r.version == b.version
    && r.sources == b.sources && r.last == b.lastKey
    && |b.pack| >= PACK_HEADER_SIZE
    && (forall key, ref :: key in b.dedupe && ref in b.dedupe[key] ==> LinkedRef(r, b, key, ref, env))
    && (forall offset :: offset in r.seen ==> offset < |b.pack|)
    && (forall offset :: offset in r.lengthByOffset ==> offset in r.seen)
    && (forall ref :: ref in r.digestByRecord ==>
          Slice(b.pack, ref.offset, ref.length).Some?
          && r.digestByRecord[ref] == env.digest(Slice(b.pack, ref.offset, ref.length).value))
  }

  /** A dedupe entry points at packed bytes with its digest, and its offset has been seen. */
  ghost predicate LinkedRef(r: Restoring, b: Building, key: (seq<byte>, nat), ref: PackRef, env: Setting) {
    && ref.offset >= PACK_HEADER_SIZE && 0 < ref.length == key.1
    && Slice(b.pack, ref.offset, ref.length).Some?
    && env.digest(Slice(b.pack, ref.offset, ref.length).value) == key.0
    && ref.offset in r.seen
    && ref.offset in r.lengthByOffset && r.lengthByOffset[ref.offset] == ref.length
  }

  lemma StartLinked(size: nat, env: Setting)
    ensures Linked(StartRestoring(env), Start(size, env), env)
  {
  }

  /** The record a consumed group leaves behind. */
  function RecordLeft(b: Building, result: ReadResult): Record {
    match result.data
    case None => EMPTY
    case Some(data) =>
      Record(FindCopy(b.pack, Refs(b.dedupe, (result.digest, |data|)), data).GetOr(|b.pack|), |data|,
             result.mime, RECORD_VALID)
  }

  lemma SliceInside(pack: seq<byte>, reference: PackRef)
    requires Slice(pack, reference.offset, reference.length).Some?
    ensures reference.offset + reference.length <= |pack|
  {
  }

  lemma MissingRestored(
    r: Restoring, b: Building, group: Group, index: seq<Record>, pack: seq<byte>, packBytes: nat, env: Setting)
    requires Linked(r, b, env) && ReadGroup(group, env).data.None?
    requires GroupRecord(index, group.ids) == Ok(EMPTY)
    ensures var next := RestoreGroup(r, group, index, pack, packBytes, env);
            next.Ok? && Linked(next.value, Consumed(b, ReadGroup(group, env)), env)
  {
    hide GroupRecord, LinkedRef, Slice, DigestOf, Refs, Stamp, FindCopy;
    var next := RestoreGroup(r, group, index, pack, packBytes, env);
    var after := Consumed(b, ReadGroup(group, env));
    forall key, ref | key in after.dedupe && ref in after.dedupe[key]
      ensures LinkedRef(next.value, after, key, ref, env)
    {
      assert LinkedRef(r, b, key, ref, env);
      LinkedKept(r, b, next.value, after, key, ref, env);
    }
  }

  lemma SliceLonger(pack: seq<byte>, more: seq<byte>, offset: nat, length: nat)
    requires pack <= more && Slice(pack, offset, length).Some?
    ensures Slice(more, offset, length) == Slice(pack, offset, length)
  {
    assert more[offset..offset + length] == pack[offset..offset + length];
  }

  /** Later states only add to what earlier ones knew. */
  ghost predicate Grows(r: Restoring, b: Building, next: Restoring, after: Building) {
    && b.pack <= after.pack && r.seen <= next.seen
    && (forall offset :: offset in r.lengthByOffset ==>
          offset in next.lengthByOffset && next.lengthByOffset[offset] == r.lengthByOffset[offset])
  }

  lemma LinkedKept(
    r: Restoring, b: Building, next: Restoring, after: Building, key: (seq<byte>, nat), ref: PackRef, env: Setting)
    requires LinkedRef(r, b, key, ref, env) && Grows(r, b, next, after)
    ensures LinkedRef(next, after, key, ref, env)
  {
    SliceLonger(b.pack, after.pack, ref.offset, ref.length);
  }

  /** Reusing a blob on both sides keeps the loop linked to the builder. */
  lemma ReuseLinked(
    r: Restoring, b: Building, next: Restoring, after: Building, reference: PackRef, env: Setting)
    requires Linked(r, b, env) && reference.offset in r.seen
    requires Slice(b.pack, reference.offset, reference.length).Some?
    requires reference.offset in r.lengthByOffset && r.lengthByOffset[reference.offset] == reference.length
    requires next.counters == after.counters && next.version == after.version
    requires next.sources == after.sources && next.last == after.lastKey
    requires after.pack == b.pack && next.dedupe == after.dedupe == b.dedupe
    requires next.seen == r.seen + {reference.offset}
    requires next.lengthByOffset == r.lengthByOffset[reference.offset := reference.length]
    requires next.digestByRecord
          == r.digestByRecord[reference := env.digest(Slice(b.pack, reference.offset, reference.length).value)]
    ensures Linked(next, after, env)
  {
    hide LinkedRef, Slice;
    forall other, ref | other in after.dedupe && ref in after.dedupe[other]
      ensures LinkedRef(next, after, other, ref, env)
    {
      assert LinkedRef(r, b, other, ref, env);
      LinkedKept(r, b, next, after, other, ref, env);
    }
    DigestsKept(r, b, next, after, reference, env);
  }

  /** What the loop knows about a dedupe entry it meets again. */
  lemma KnownRef(r: Restoring, b: Building, result: ReadResult, env: Setting) returns (reference: PackRef)
    requires Linked(r, b, env) && result.data.Some? && |result.data.value| > 0
    requires result.digest == env.digest(result.data.value)
    requires FindCopy(b.pack, Refs(b.dedupe, (result.digest, |result.data.value|)), result.data.value).Some?
    ensures reference == PackRef(RecordLeft(b, result).offset, |result.data.value|)
    ensures Slice(b.pack, reference.offset, reference.length) == result.data
    ensures reference.offset >= PACK_HEADER_SIZE && reference.offset in r.seen
    ensures reference.offset in r.lengthByOffset && r.lengthByOffset[reference.offset] == reference.length
    ensures reference in r.digestByRecord ==> r.digestByRecord[reference] == result.digest
    ensures r.counters == b.counters && r.dedupe == b.dedupe && r.version == b.version
    ensures r.sources == b.sources && r.last == b.lastKey
  {
    hide LinkedRef, FindCopy, Slice;
    forall other, ref | other in b.dedupe && ref in b.dedupe[other] ensures ref.length == other.1 {
      LinkedRefFacts(r, b, other, ref, env);
    }
    reference := ReusedRef(b, result);
    LinkedRefFacts(r, b, (result.digest, |result.data.value|), reference, env);
  }

  lemma ReuseRestored(
    r: Restoring, b: Building, group: Group, index: seq<Record>, pack: seq<byte>, packBytes: nat, env: Setting)
    requires Linked(r, b, env) && GoodSetting(env)
    requires var result := ReadGroup(group, env);
             result.data.Some?
             && FindCopy(b.pack, Refs(b.dedupe, (result.digest, |result.data.value|)), result.data.value).Some?
    requires b.pack <= pack && packBytes == |pack|
    requires GroupRecord(index, group.ids) == Ok(RecordLeft(b, ReadGroup(group, env)))
    ensures var next := RestoreGroup(r, group, index, pack, packBytes, env);
            next.Ok? && Linked(next.value, Consumed(b, ReadGroup(group, env)), env)
  {
    hide GroupRecord, Linked, ReadGroup, FindCopy, LinkedRef;
    var result := ReadGroup(group, env);
    var reference := KnownRef(r, b, result, env);
    SliceLonger(b.pack, pack, reference.offset, reference.length);
    assert DigestOf(r, pack, reference, env) == Ok(result.digest);
    SliceInside(pack, reference);
    hide Slice, DigestOf, Refs, Stamp;
    var next := RestoreGroup(r, group, index, pack, packBytes, env);
    ReuseLinked(r, b, next.value, Consumed(b, result), reference, env);
  }

  lemma LinkedRefFacts(r: Restoring, b: Building, key: (seq<byte>, nat), ref: PackRef, env: Setting)
    requires LinkedRef(r, b, key, ref, env)
    ensures ref.offset >= PACK_HEADER_SIZE && 0 < ref.length == key.1
    ensures Slice(b.pack, ref.offset, ref.length).Some? && ref.offset in r.seen
    ensures ref.offset in r.lengthByOffset && r.lengthByOffset[ref.offset] == ref.length
  {
  }

  /** The dedupe entry whose copy was found. */
  lemma ReusedRef(b: Building, result: ReadResult) returns (reference: PackRef)
    requires result.data.Some?
    requires FindCopy(b.pack, Refs(b.dedupe, (result.digest, |result.data.value|)), result.data.value).Some?
    requires forall key, ref :: key in b.dedupe && ref in b.dedupe[key] ==> ref.length == key.1
    ensures var key := (result.digest, |result.data.value|);
            key in b.dedupe && reference in b.dedupe[key]
    ensures reference == PackRef(RecordLeft(b, result).offset, |result.data.value|)
    ensures Slice(b.pack, reference.offset, reference.length) == result.data
  {
    var data := result.data.value;
    var refs := Refs(b.dedupe, (result.digest, |data|));
    var offset := FindCopy(b.pack, refs, data).value;
    var k :| 0 <= k < |refs| && refs[k].offset == offset
             && Slice(b.pack, refs[k].offset, refs[k].length) == Some(data);
    reference := refs[k];
  }

  /** Appending a blob on both sides keeps the loop linked to the builder. */
  lemma AppendLinked(
    r: Restoring, b: Building, next: Restoring, after: Building, reference: PackRef, data: seq<byte>, env: Setting)
    requires Linked(r, b, env) && |data| > 0 && reference == PackRef(|b.pack|, |data|)
    requires next.counters == after.counters && next.version == after.version
    requires next.sources == after.sources && next.last == after.lastKey
    requires after.pack == b.pack + data
    requires var key := (env.digest(data), |data|);
             next.dedupe == after.dedupe == b.dedupe[key := Refs(b.dedupe, key) + [reference]]
    requires next.seen == r.seen + {reference.offset}
    requires next.lengthByOffset == r.lengthByOffset[reference.offset := reference.length]
    requires next.digestByRecord == r.digestByRecord[reference := env.digest(data)]
    ensures Linked(next, after, env)
  {
    hide LinkedRef;
    var key := (env.digest(data), |data|);
    assert after.pack[|b.pack|..|b.pack| + |data|] == data;
    assert Slice(after.pack, |b.pack|, |data|) == Some(data);
    NewRefLinked(next, after, reference, key, env);
    forall other, ref | other in after.dedupe && ref in after.dedupe[other]
      ensures LinkedRef(next, after, other, ref, env)
    {
      if other in b.dedupe && ref in b.dedupe[other] {
        assert LinkedRef(r, b, other, ref, env);
        LinkedKept(r, b, next, after, other, ref, env);
      } else {
        assert other == key && ref == reference;
      }
    }
    DigestsKept(r, b, next, after, reference, env);
  }

  /** The end of the pack was never seen as an offset. */
  lemma EndIsNew(r: Restoring, b: Building, length: nat, env: Setting)
    requires Linked(r, b, env) && length > 0
    ensures |b.pack| !in r.seen && |b.pack| !in r.lengthByOffset
    ensures PackRef(|b.pack|, length) !in r.digestByRecord
    ensures |b.pack| >= PACK_HEADER_SIZE
    ensures r.counters == b.counters && r.dedupe == b.dedupe && r.version == b.version
    ensures r.sources == b.sources && r.last == b.lastKey
  {
    hide LinkedRef;
    assert Slice(b.pack, |b.pack|, length).None?;
  }

  lemma AppendRestored(
    r: Restoring, b: Building, group: Group, index: seq<Record>, pack: seq<byte>, packBytes: nat, env: Setting)
    requires Linked(r, b, env) && GoodSetting(env)
    requires var result := ReadGroup(group, env);
             result.data.Some?
             && FindCopy(b.pack, Refs(b.dedupe, (result.digest, |result.data.value|)), result.data.value).None?
    requires b.pack + ReadGroup(group, env).data.value <= pack && packBytes == |pack|
    requires GroupRecord(index, group.ids) == Ok(RecordLeft(b, ReadGroup(group, env)))
    ensures var next := RestoreGroup(r, group, index, pack, packBytes, env);
            next.Ok? && Linked(next.value, Consumed(b, ReadGroup(group, env)), env)
  {
    hide GroupRecord, Linked, ReadGroup, FindCopy;
    var result := ReadGroup(group, env);
    var data := result.data.value;
    var reference := PackRef(|b.pack|, |data|);
    var after := Consumed(b, result);
    assert after.pack == b.pack + data;
    assert after.pack[|b.pack|..|b.pack| + |data|] == data;
    SliceLonger(after.pack, pack, |b.pack|, |data|);
    EndIsNew(r, b, |data|, env);
    assert DigestOf(r, pack, reference, env) == Ok(result.digest);
    var next := RestoreGroup(r, group, index, pack, packBytes, env);
    AppendLinked(r, b, next.value, after, reference, data, env);
  }

  lemma NewRefLinked(r: Restoring, b: Building, ref: PackRef, key: (seq<byte>, nat), env: Setting)
    requires ref.offset >= PACK_HEADER_SIZE && 0 < ref.length == key.1
    requires Slice(b.pack, ref.offset, ref.length).Some?
    requires env.digest(Slice(b.pack, ref.offset, ref.length).value) == key.0
    requires ref.offset in r.seen && ref.offset in r.lengthByOffset && r.lengthByOffset[ref.offset] == ref.length
    ensures LinkedRef(r, b, key, ref, env)
  {
  }

  lemma DigestsKept(r: Restoring, b: Building, next: Restoring, after: Building, reference: PackRef, env: Setting)
    requires b.pack <= after.pack && Slice(after.pack, reference.offset, reference.length).Some?
    requires next.digestByRecord
          == r.digestByRecord[reference := env.digest(Slice(after.pack, reference.offset, reference.length).value)]
    requires forall ref :: ref in r.digestByRecord ==>
               Slice(b.pack, ref.offset, ref.length).Some?
               && r.digestByRecord[ref] == env.digest(Slice(b.pack, ref.offset, ref.length).value)
    ensures forall ref :: ref in next.digestByRecord ==>
              Slice(after.pack, ref.offset, ref.length).Some?
              && next.digestByRecord[ref] == env.digest(Slice(after.pack, ref.offset, ref.length).value)
  {
    hide Slice;
    forall ref | ref in next.digestByRecord && ref != reference
      ensures Slice(after.pack, ref.offset, ref.length).Some?
      ensures next.digestByRecord[ref] == env.digest(Slice(after.pack, ref.offset, ref.length).value)
    {
      SliceLonger(b.pack, after.pack, ref.offset, ref.length);
    }
  }

  /** One group of a restore retraces what `consume` did. */
  lemma GroupRestored(
    r: Restoring, b: Building, group: Group, index: seq<Record>, pack: seq<byte>, packBytes: nat, env: Setting)
    requires Linked(r, b, env) && GoodSetting(env)
    requires Consumed(b, ReadGroup(group, env)).pack <= pack && packBytes == |pack|
    requires GroupRecord(index, group.ids) == Ok(RecordLeft(b, ReadGroup(group, env)))
    ensures var next := RestoreGroup(r, group, index, pack, packBytes, env);
            next.Ok? && Linked(next.value, Consumed(b, ReadGroup(group, env)), env)
  {
    hide Linked, GroupRecord, ReadGroup, RestoreGroup, FindCopy;
    var result := ReadGroup(group, env);
    var after := Consumed(b, result);
    if result.data.None? {
      MissingRestored(r, b, group, index, pack, packBytes, env);
    } else if FindCopy(b.pack, Refs(b.dedupe, (result.digest, |result.data.value|)), result.data.value).Some? {
      ReuseRestored(r, b, group, index, pack, packBytes, env);
    } else {
      AppendRestored(r, b, group, index, pack, packBytes, env);
    }
  }

  /* ---- The records of consumed groups stay. ---- */

  /** `index` carries, at the rows of groups before `k`, what the fold of the first `k` groups wrote. */
  ghost predicate Agrees(index: seq<Record>, groups: seq<Group>, k: nat, size: nat, env: Setting)
    requires k <= |groups|
  {
    && |index| == size
    && (forall id :: 0 <= id < size && (forall j :: k <= j < |groups| ==> id !in groups[j].ids) ==>
          index[id] == Fold(size, groups[..k], env).index[id])
  }

  lemma FoldStep(size: nat, groups: seq<Group>, k: nat, env: Setting)
    requires k < |groups|
    ensures Fold(size, groups[..k + 1], env)
         == Consumed(Fold(size, groups[..k], env), ReadGroup(groups[k], env))
  {
    assert groups[..k + 1] == groups[..k] + [groups[k]];
    FoldFromAppend(Start(size, env), groups[..k], groups[k], env);
  }

  /** Consuming a group writes its own rows only. */
  lemma ConsumedRecords(b: Building, result: ReadResult, id: nat)
    requires id < |b.index|
    ensures Consumed(b, result).index[id]
         == if id in result.group.ids then RecordLeft(b, result) else b.index[id]
    ensures b.pack <= Consumed(b, result).pack
  {
    hide FindCopy;
  }

  lemma {:induction false} RecordStays(size: nat, groups: seq<Group>, i: nat, k: nat, id: nat, env: Setting)
    requires GoodGroups(groups) && i < k <= |groups| && id in groups[i].ids && id < size
    ensures Fold(size, groups[..k], env).index[id]
         == RecordLeft(Fold(size, groups[..i], env), ReadGroup(groups[i], env))
    decreases k
  {
    hide Consumed, RecordLeft, ReadGroup, FoldFrom;
    FoldStep(size, groups, k - 1, env);
    ConsumedRecords(Fold(size, groups[..k - 1], env), ReadGroup(groups[k - 1], env), id);
    if i < k - 1 {
      RecordStays(size, groups, i, k - 1, id, env);
    }
  }

  lemma {:induction false} PackGrows(size: nat, groups: seq<Group>, i: nat, k: nat, env: Setting)
    requires i <= k <= |groups|
    ensures Fold(size, groups[..i], env).pack <= Fold(size, groups[..k], env).pack
    decreases k
  {
    hide Consumed, RecordLeft, ReadGroup, FoldFrom;
    if i < k {
      PackGrows(size, groups, i, k - 1, env);
      FoldStep(size, groups, k - 1, env);
      var b, result := Fold(size, groups[..k - 1], env), ReadGroup(groups[k - 1], env);
      PackOnlyGrows(b, result);
      PrefixTransitive(Fold(size, groups[..i], env).pack, b.pack, Consumed(b, result).pack);
    }
  }

  lemma PackOnlyGrows(b: Building, result: ReadResult)
    ensures b.pack <= Consumed(b, result).pack
  {
  }

  lemma PrefixTransitive(a: seq<byte>, b: seq<byte>, c: seq<byte>)
    requires a <= b && b <= c
    ensures a <= c
  {
  }

  lemma GroupRecordFound(
    index: seq<Record>, groups: seq<Group>, i: nat, k: nat, size: nat, env: Setting)
    requires GoodGroups(groups) && InRange(groups, size) && i < k <= |groups|
    requires Agrees(index, groups, k, size, env)
    ensures GroupRecord(index, groups[i].ids)
         == Ok(RecordLeft(Fold(size, groups[..i], env), ReadGroup(groups[i], env)))
  {
    hide Fold, RecordLeft, ReadGroup;
    var ids, left := groups[i].ids, RecordLeft(Fold(size, groups[..i], env), ReadGroup(groups[i], env));
    forall id | id in ids ensures id < size && index[id] == left {
      RecordStays(size, groups, i, k, id, env);
      assert forall j :: k <= j < |groups| ==> id !in groups[j].ids;
    }
    assert ids[0] in ids;
  }

  lemma {:induction false} RestoreTracesFold(
    index: seq<Record>, pack: seq<byte>, groups: seq<Group>, i: nat, k: nat, size: nat, env: Setting)
    requires GoodGroups(groups) && InRange(groups, size) && GoodSetting(env) && i <= k <= |groups|
    requires Agrees(index, groups, k, size, env) && pack == Fold(size, groups[..k], env).pack
    ensures var r := RestoreAll(groups[..i], index, pack, |pack|, env);
            r.Ok? && Linked(r.value, Fold(size, groups[..i], env), env)
    decreases i
  {
    hide Linked, GoodGroups, InRange, Agrees, GroupRecord, RestoreGroup, Consumed, ReadGroup, RecordLeft;
    if i == 0 {
      StartLinked(size, env);
      assert groups[..0] == [];
    } else {
      hide RestoreAll, Fold;
      RestoreTracesFold(index, pack, groups, i - 1, k, size, env);
      assert groups[..i] == groups[..i - 1] + [groups[i - 1]];
      RestoreAppend(groups[..i - 1], groups[i - 1], index, pack, |pack|, env);
      FoldStep(size, groups, i - 1, env);
      PackGrows(size, groups, i, k, env);
      GroupRecordFound(index, groups, i - 1, k, size, env);
      GroupRestored(RestoreAll(groups[..i - 1], index, pack, |pack|, env).value,
                    Fold(size, groups[..i - 1], env), groups[i - 1], index, pack, |pack|, env);
    }
  }

  lemma FoldLastKey(size: nat, groups: seq<Group>, k: nat, env: Setting)
    requires k <= |groups|
    ensures Fold(size, groups[..k], env).lastKey == if k == 0 then None else Some(groups[k - 1].key)
  {
    hide FindCopy, ReadGroup;
    if k > 0 {
      FoldStep(size, groups, k - 1, env);
    }
  }

  /** The database a build runs over. */
  ghost predicate GoodTable(rows: seq<Entry>, size: nat) {
    OrderedEntries(rows) && forall k :: 0 <= k < |rows| ==> rows[k].id < size
  }

  lemma TableInRange(rows: seq<Entry>, size: nat)
    requires GoodTable(rows, size)
    ensures GoodGroups(GroupsOf(rows)) && InRange(GroupsOf(rows), size)
  {
    hide OrderedEntries;
    GroupsGood(rows);
    var groups := GroupsOf(rows);
    forall i, id | 0 <= i < |groups| && id in groups[i].ids ensures id < size {
      assert Entry(id, groups[i].key) in rows;
    }
  }

  /** The groups through the checkpoint's key are the consumed ones. */
  lemma ThroughConsumed(rows: seq<Entry>, size: nat, k: nat, env: Setting)
    requires GoodTable(rows, size) && k <= |GroupsOf(rows)| && (k > 0 || GroupsOf(rows) == [])
    ensures var key := Fold(size, GroupsOf(rows)[..k], env).lastKey;
            && GroupsOf(Keep(rows, Within(None, key))) == GroupsOf(rows)[..k]
            && GroupsOf(Keep(rows, Within(key, None))) == GroupsOf(rows)[k..]
  {
    var groups := GroupsOf(rows);
    FoldLastKey(size, groups, k, env);
    hide Fold, Keep, Within;
    if k > 0 {
      GroupsSplit(rows, k);
    } else {
      LastGroupKey(rows);
      NoRowsKept();
    }
  }

  lemma NoRowsKept()
    ensures forall p: Entry -> bool :: Keep([], p) == []
  {
  }

  /**
   * State reconstruction is exact: from the rows of the consumed groups and the pack bytes, a
   * restore never fails and returns the very state the builder held at the checkpoint.
   */
  lemma RestoreExact(
    rows: seq<Entry>, index: seq<Record>, size: nat, k: nat, env: Setting, finalVersion: Option<seq<byte>>)
    requires GoodTable(rows, size) && GoodSetting(env)
    requires k <= |GroupsOf(rows)| && (k > 0 || GroupsOf(rows) == [])
    requires Agrees(index, GroupsOf(rows), k, size, env)
    ensures var b := Fold(size, GroupsOf(rows)[..k], env);
            Restored(rows, index, b.pack, CheckpointOf(b, env, finalVersion), env) == Ok(b.(index := index))
  {
    hide Fold, Agrees, GoodTable, GroupsOf, RestoreAll, Keep, Within;
    var groups := GroupsOf(rows);
    var b := Fold(size, groups[..k], env);
    TableInRange(rows, size);
    ThroughConsumed(rows, size, k, env);
    assert groups[..k][..k] == groups[..k];
    RestoreTracesFold(index, b.pack, groups, k, k, size, env);
    RestoreTracesLinked(RestoreAll(groups[..k], index, b.pack, |b.pack|, env).value, b, env);
  }

  lemma RestoreTracesLinked(r: Restoring, b: Building, env: Setting)
    requires Linked(r, b, env)
    ensures r.counters == b.counters && r.dedupe == b.dedupe && r.version == b.version
    ensures r.sources == b.sources && r.last == b.lastKey
  {
  }

  lemma {:induction false} RestoreReachesLast(
    groups: seq<Group>, index: seq<Record>, pack: seq<byte>, packBytes: nat, env: Setting)
    requires groups != [] && RestoreAll(groups, index, pack, packBytes, env).Ok?
    ensures RestoreAll(groups, index, pack, packBytes, env).value.last == Some(groups[|groups| - 1].key)
  {
    hide GroupRecord, DigestOf, ValidRecord;
  }

  /**
   * A checkpoint without a last key is scanned against all groups, so whatever the files hold it is
   * refused and the build starts clean, unless the database is empty.
   */
  lemma NullBoundaryRefused(
    rows: seq<Entry>, index: seq<Record>, pack: seq<byte>, checkpoint: Checkpoint, env: Setting)
    requires checkpoint.lastKey.None? && rows != []
    ensures Restored(rows, index, pack, checkpoint, env).Err?
  {
    KeepAll(rows, Within(None, None));
    LastGroupKey(rows);
    var groups := GroupsOf(rows);
    hide RestoreAll, GroupsOf, Keep, Within;
    if RestoreAll(groups, index, pack, checkpoint.packBytes, env).Ok? {
      RestoreReachesLast(groups, index, pack, checkpoint.packBytes, env);
    }
  }
}
