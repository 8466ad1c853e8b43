/** The resumable pack builder: a left-to-right fold over the audio groups of the database. */
module PackBuilder {
  import opened Wrappers
  import opened Text
  import opened Sorting
  import opened Groups

  const PACK_HEADER_SIZE := 64
  const MAX_AUDIO_BYTES := 64 * 1024 * 1024
  const RECORD_VALID := 1

  /** "LAFPACK1". */
  const PACK_MAGIC: seq<byte> := [76, 65, 70, 80, 65, 67, 75, 49]

  function PackHeader(): (header: seq<byte>)
    ensures |header| == PACK_HEADER_SIZE
  {
    PACK_MAGIC + seq(56, _ => 0)
  }

  /** One row-id record of `audio.idx`. */
  datatype Record = Record(offset: nat, length: nat, mime: nat, flags: nat)

  const EMPTY := Record(0, 0, 0, 0)

  /** What the file system says about an audio key; `mime` 0 means no usable path. */
  datatype SourceFile = SourceFile(token: seq<byte>, mime: nat, content: Option<seq<byte>>)

  /** Everything a build depends on besides the rows; constant while source files are unchanged. */
  datatype Setting = Setting(
    files: AudioKey -> SourceFile,
    digest: seq<byte> -> seq<byte>,
    sha: seq<byte> -> seq<byte>,
    stamp: seq<byte>)

  ghost predicate GoodSetting(env: Setting) {
    forall key :: env.files(key).mime <= 6
  }

  datatype ReadResult = ReadResult(
    group: Group, data: Option<seq<byte>>, digest: seq<byte>, mime: nat, token: seq<byte>)

  /** `_read_group`: empty, oversized, unreadable and unsupported files all count as missing. */
  function ReadGroup(group: Group, env: Setting): (r: ReadResult)
    ensures r.group == group && r.token == env.files(group.key).token
    ensures r.data.Some? ==> 0 < |r.data.value| <= MAX_AUDIO_BYTES && r.mime > 0
                             && r.digest == env.digest(r.data.value)
    ensures r.data.Some? <==> Readable(group.key, env)
    ensures r.data.Some? ==> r.data == env.files(group.key).content && r.mime == env.files(group.key).mime
  {
    var file := env.files(group.key);
    if file.mime == 0 || file.content.None? then ReadResult(group, None, [], 0, file.token)
    else if |file.content.value| == 0 || |file.content.value| > MAX_AUDIO_BYTES
    then ReadResult(group, None, [], 0, file.token)
    else ReadResult(group, file.content, env.digest(file.content.value), file.mime, file.token)
  }

  predicate Readable(key: AudioKey, env: Setting) {
    var file := env.files(key);
    file.mime > 0 && file.content.Some? && 0 < |file.content.value| <= MAX_AUDIO_BYTES
  }

  datatype Counters = Counters(
    paths: nat, rows: nat, valid: nat, readable: nat,
    unique: nat, duplicates: nat, saved: nat, missing: nat)

  const NO_COUNTS := Counters(0, 0, 0, 0, 0, 0, 0, 0)

  datatype PackRef = PackRef(offset: nat, length: nat)

  type Dedupe = map<(seq<byte>, nat), seq<PackRef>>

  /** The builder's whole state between two groups. */
  datatype Building = Building(
    index: seq<Record>, pack: seq<byte>, dedupe: Dedupe, counters: Counters,
    version: seq<byte>, sources: seq<byte>, lastKey: Option<AudioKey>)

  function Start(size: nat, env: Setting): Building {
    Building(seq(size, _ => EMPTY), PackHeader(), map[], NO_COUNTS, env.stamp, [], None)
  }

  /** The given rows all carry `record`; every other row keeps its own. */
  function Stamp(index: seq<Record>, ids: seq<nat>, record: Record): (r: seq<Record>)
    ensures |r| == |index|
    ensures forall id :: 0 <= id < |index| ==> r[id] == if id in ids then record else index[id]
  {
    seq(|index|, id requires 0 <= id < |index| => if id in ids then record else index[id])
  }

  function Refs(dedupe: Dedupe, key: (seq<byte>, nat)): seq<PackRef> {
    if key in dedupe then dedupe[key] else []
  }

  function Slice(pack: seq<byte>, offset: nat, length: nat): Option<seq<byte>> {
    if offset + length <= |pack| then Some(pack[offset..offset + length]) else None
  }

  /** The first candidate whose bytes equal `data`; a digest alone never decides. */
  function FindCopy(pack: seq<byte>, refs: seq<PackRef>, data: seq<byte>): (r: Option<nat>)
    ensures r.Some? ==> exists k :: 0 <= k < |refs| && refs[k].offset == r.value
                                    && Slice(pack, refs[k].offset, refs[k].length) == Some(data)
    ensures r.None? ==> forall k :: 0 <= k < |refs| ==> Slice(pack, refs[k].offset, refs[k].length) != Some(data)
  {
    if refs == [] then None
    else if Slice(pack, refs[0].offset, refs[0].length) == Some(data) then Some(refs[0].offset)
    else FindCopy(pack, refs[1..], data)
  }

  /** What `consume` makes of one read result. */
  function Consumed(b: Building, result: ReadResult): (r: Building)
    ensures |r.index| == |b.index|
  {
    var ids, c := result.group.ids, b.counters;
    var seen := c.(paths := c.paths + 1, rows := c.rows + |ids|);
    var sources := b.sources + result.token;
    match result.data
    case None =>
      b.(index := Stamp(b.index, ids, EMPTY), counters := seen.(missing := c.missing + 1),
         sources := sources, lastKey := Some(result.group.key))
    case Some(data) =>
      var key := (result.digest, |data|);
      var copy := FindCopy(b.pack, Refs(b.dedupe, key), data);
      var offset := copy.GetOr(|b.pack|);
      var found := seen.(readable := c.readable + 1, valid := c.valid + |ids|);
      Building(
        Stamp(b.index, ids, Record(offset, |data|, result.mime, RECORD_VALID)),
        if copy.Some? then b.pack else b.pack + data,
        if copy.Some? then b.dedupe else b.dedupe[key := Refs(b.dedupe, key) + [PackRef(offset, |data|)]],
        if copy.Some? then found.(duplicates := c.duplicates + 1, saved := c.saved + |data|)
        else found.(unique := c.unique + 1),
        b.version + result.group.key.source + [0] + result.group.key.file + [0] + result.digest,
        sources, Some(result.group.key))
  }

  function FoldFrom(b: Building, groups: seq<Group>, env: Setting): (r: Building)
    ensures |r.index| == |b.index|
  {
    if groups == [] then b
    else Consumed(FoldFrom(b, groups[..|groups| - 1], env), ReadGroup(groups[|groups| - 1], env))
  }

  /** One straight run over the groups. */
  function Fold(size: nat, groups: seq<Group>, env: Setting): (b: Building)
    ensures |b.index| == size
  {
    FoldFrom(Start(size, env), groups, env)
  }

  lemma FoldFromAppend(b: Building, groups: seq<Group>, group: Group, env: Setting)
    ensures FoldFrom(b, groups + [group], env) == Consumed(FoldFrom(b, groups, env), ReadGroup(group, env))
  {
    assert (groups + [group])[..|groups|] == groups;
  }

  lemma {:induction false} FoldFromConcat(b: Building, left: seq<Group>, right: seq<Group>, env: Setting)
    ensures FoldFrom(b, left + right, env) == FoldFrom(FoldFrom(b, left, env), right, env)
  {
    if right == [] {
      assert left + right == left;
    } else {
      var front, last := right[..|right| - 1], right[|right| - 1];
      assert left + right == (left + front) + [last] && right == front + [last];
      hide *;
      FoldFromConcat(b, left, front, env);
      FoldFromAppend(b, left + front, last, env);
      FoldFromAppend(FoldFrom(b, left, env), front, last, env);
    }
  }

  /** The builder of `_build_audio_pack_locked`: index map, pack file and running totals. */
  class Builder {
    var index: seq<Record>
    var pack: seq<byte>
    var dedupe: Dedupe
    var counters: Counters
    var version: seq<byte>
    var sources: seq<byte>
    var lastKey: Option<AudioKey>

    ghost function State(): Building
      reads this
    {
      Building(index, pack, dedupe, counters, version, sources, lastKey)
    }

    constructor (size: nat, env: Setting)
      ensures State() == Start(size, env)
    {
      index, pack, dedupe := seq(size, _ => EMPTY), PackHeader(), map[];
      counters, version, sources, lastKey := NO_COUNTS, env.stamp, [], None;
      new;
      assert index == Start(size, env).index;
    }

    /** Continues from a restored state. */
    constructor Resume(b: Building)
      ensures State() == b
    {
      index, pack, dedupe := b.index, b.pack, b.dedupe;
      counters, version, sources, lastKey := b.counters, b.version, b.sources, b.lastKey;
    }

    method WriteRecords(ids: seq<nat>, record: Record)
      requires forall id :: id in ids ==> id < |index|
      modifies this`index
      ensures index == Stamp(old(index), ids, record)
    {
      var k := 0;
      while k < |ids|
        invariant 0 <= k <= |ids|
        invariant index == Stamp(old(index), ids[..k], record)
      {
        assert ids[..k + 1] == ids[..k] + [ids[k]];
        assert ids[k] in ids;
        index := index[ids[k] := record];
        k := k + 1;
      }
      assert ids[..k] == ids;
    }

    /** Reads each candidate back from the pack file and compares bytes. */
    method SearchCopy(refs: seq<PackRef>, data: seq<byte>) returns (copy: Option<nat>)
      ensures copy == FindCopy(pack, refs, data)
    {
      var k := 0;
      while k < |refs|
        invariant 0 <= k <= |refs|
        invariant FindCopy(pack, refs, data) == FindCopy(pack, refs[k..], data)
      {
        if Slice(pack, refs[k].offset, refs[k].length) == Some(data) {
          return Some(refs[k].offset);
        }
        k := k + 1;
      }
      copy := None;
    }

    /** `consume`. */
    method Consume(result: ReadResult)
      requires forall id :: id in result.group.ids ==> id < |index|
      modifies this
      ensures State() == Consumed(old(State()), result)
    {
      hide FindCopy, Stamp, Refs, Slice;
      ghost var before := State();
      var ids := result.group.ids;
      WriteRecords(ids, EMPTY);
      sources := sources + result.token;
      counters := counters.(paths := counters.paths + 1, rows := counters.rows + |ids|);
      lastKey := Some(result.group.key);
      if result.data.None? {
        counters := counters.(missing := counters.missing + 1);
        return;
      }
      var data := result.data.value;
      counters := counters.(readable := counters.readable + 1);
      var key := (result.digest, |data|);
      var copy := SearchCopy(Refs(dedupe, key), data);
      var offset := copy.GetOr(|pack|);
      if copy.None? {
        pack := pack + data;
        dedupe := dedupe[key := Refs(dedupe, key) + [PackRef(offset, |data|)]];
        counters := counters.(unique := counters.unique + 1);
      } else {
        counters := counters.(duplicates := counters.duplicates + 1, saved := counters.saved + |data|);
      }
      WriteRecords(ids, Record(offset, |data|, result.mime, RECORD_VALID));
      StampTwice(before.index, ids, Record(offset, |data|, result.mime, RECORD_VALID));
      counters := counters.(valid := counters.valid + |ids|);
      version := version + result.group.key.source + [0] + result.group.key.file + [0] + result.digest;
    }

    /** Takes the oldest read result; results are consumed first in, first out. */
    method ConsumeNext(
      groups: seq<Group>, env: Setting, pending: seq<ReadResult>, ghost before: Building, ghost consumed: nat)
      returns (rest: seq<ReadResult>)
      requires Ahead(groups, env, pending, consumed) && pending != []
      requires InRange(groups, |index|)
      requires State() == FoldFrom(before, groups[..consumed], env)
      modifies this
      ensures Ahead(groups, env, rest, consumed + 1) && |rest| == |pending| - 1
      ensures |index| == old(|index|)
      ensures State() == FoldFrom(before, groups[..consumed + 1], env)
    {
      hide Consumed, ReadGroup, FoldFrom;
      assert groups[..consumed + 1] == groups[..consumed] + [groups[consumed]];
      FoldFromAppend(before, groups[..consumed], groups[consumed], env);
      Consume(pending[0]);
      rest := pending[1..];
    }

    /**
     * The packing loop and the polls around it: files are read ahead in a window, and cancellation is
     * polled before each is requested and before each is consumed. What is done is always the fold of
     * a prefix, and it is all of it exactly when no poll asks to cancel.
     */
    method PackGroups(groups: seq<Group>, env: Setting, window: nat, cancels: nat -> bool)
      returns (cancelled: bool, ghost consumed: nat)
      requires window > 0 && InRange(groups, |index|)
      modifies this
      ensures consumed <= |groups| && (!cancelled ==> consumed == |groups|)
      ensures State() == FoldFrom(old(State()), groups[..consumed], env)
      ensures cancelled <==> exists poll :: 0 <= poll <= 2 * |groups| + 1 && cancels(poll)
    {
      hide Consumed, ReadGroup, FoldFrom, Ahead;
      ghost var before := State();
      var pending: seq<ReadResult> := [];
      consumed := 0;
      NothingAhead(groups, env, before);
      if cancels(0) {
        return true, consumed;
      }
      var polls, next := 1, 0;
      while next < |groups|
        invariant 0 <= next <= |groups| && consumed + |pending| == next
        invariant polls == 1 + next + consumed && forall poll :: 0 <= poll < polls ==> !cancels(poll)
        invariant Ahead(groups, env, pending, consumed) && |index| == |before.index|
        invariant State() == FoldFrom(before, groups[..consumed], env)
      {
        if cancels(polls) {
          return true, consumed;
        }
        polls := polls + 1;
        ReadAhead(groups, env, pending, consumed);
        pending := pending + [ReadGroup(groups[next], env)];
        next := next + 1;
        if |pending| >= window {
          if cancels(polls) {
            return true, consumed;
          }
          polls := polls + 1;
          pending := ConsumeNext(groups, env, pending, before, consumed);
          consumed := consumed + 1;
        }
      }
      while pending != []
        invariant consumed + |pending| == |groups|
        invariant polls == 1 + |groups| + consumed && forall poll :: 0 <= poll < polls ==> !cancels(poll)
        invariant Ahead(groups, env, pending, consumed) && |index| == |before.index|
        invariant State() == FoldFrom(before, groups[..consumed], env)
        decreases |pending|
      {
        if cancels(polls) {
          return true, consumed;
        }
        polls := polls + 1;
        pending := ConsumeNext(groups, env, pending, before, consumed);
        consumed := consumed + 1;
      }
      cancelled := cancels(polls);
    }
  }

  /** Every row id has its slot in the index. */
  ghost predicate InRange(groups: seq<Group>, size: nat) {
    forall k, id :: 0 <= k < |groups| && id in groups[k].ids ==> id < size
  }

  /** The read results waiting are those of the groups after the consumed ones. */
  ghost predicate Ahead(groups: seq<Group>, env: Setting, pending: seq<ReadResult>, consumed: nat) {
    && consumed + |pending| <= |groups|
    && (forall k :: 0 <= k < |pending| ==> pending[k] == ReadGroup(groups[consumed + k], env))
  }

  lemma NothingAhead(groups: seq<Group>, env: Setting, before: Building)
    ensures Ahead(groups, env, [], 0) && FoldFrom(before, groups[..0], env) == before
  {
  }

  lemma ReadAhead(groups: seq<Group>, env: Setting, pending: seq<ReadResult>, consumed: nat)
    requires Ahead(groups, env, pending, consumed) && consumed + |pending| < |groups|
    ensures Ahead(groups, env, pending + [ReadGroup(groups[consumed + |pending|], env)], consumed)
  {
  }

  lemma StampTwice(index: seq<Record>, ids: seq<nat>, record: Record)
    ensures Stamp(Stamp(index, ids, EMPTY), ids, record) == Stamp(index, ids, record)
  {
  }
}
