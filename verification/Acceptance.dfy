/** Which checkpoints a build accepts: exactly the ones whose files, counters and sources still agree. */
module Acceptance {
  import opened Wrappers
  import opened Text
  import opened Sorting
  import opened Groups
  import opened PackBuilder
  import opened Resume

  /** The record of a group's first row. */
  function SharedRecord(index: seq<Record>, group: Group): Record {
    if group.ids != [] && group.ids[0] < |index| then index[group.ids[0]] else EMPTY
  }

  predicate HasAudio(index: seq<Record>, group: Group) {
    SharedRecord(index, group).flags % 2 == 1
  }

  /** All rows of the group carry the same record. */
  predicate Uniform(index: seq<Record>, group: Group) {
    group.ids != [] && forall id :: id in group.ids ==> id < |index| && index[id] == SharedRecord(index, group)
  }

  /** Nothing but zeros, or a range of real audio between the header and what the checkpoint counts. */
  predicate Plausible(record: Record, packBytes: nat, packSize: nat) {
    if record.flags % 2 == 1 then
      && 1 <= record.mime <= 6 && 0 < record.length <= MAX_AUDIO_BYTES
      && PACK_HEADER_SIZE <= record.offset && record.offset + record.length <= packBytes
      && record.offset + record.length <= packSize
    else record == EMPTY
  }

  /** No two groups give one pack offset different lengths. */
  ghost predicate OneLength(groups: seq<Group>, index: seq<Record>) {
    forall g, h :: g in groups && h in groups && HasAudio(index, g) && HasAudio(index, h)
                   && SharedRecord(index, g).offset == SharedRecord(index, h).offset ==>
                     SharedRecord(index, g).length == SharedRecord(index, h).length
  }

  ghost predicate Trusted(groups: seq<Group>, index: seq<Record>, pack: seq<byte>, packBytes: nat) {
    && (forall g :: g in groups ==> Uniform(index, g) && Plausible(SharedRecord(index, g), packBytes, |pack|))
    && OneLength(groups, index)
  }

  ghost function Offsets(groups: seq<Group>, index: seq<Record>): set<nat> {
    set g | g in groups && HasAudio(index, g) :: SharedRecord(index, g).offset
  }

  /** What the source files look like now, in group order. */
  function Tokens(groups: seq<Group>, env: Setting): seq<byte> {
    if groups == [] then []
    else Tokens(groups[..|groups| - 1], env) + env.files(groups[|groups| - 1].key).token
  }

  function LastKey(groups: seq<Group>): Option<AudioKey> {
    if groups == [] then None else Some(groups[|groups| - 1].key)
  }

  /** The counters that the records stand for: an offset met again is a duplicate. */
  ghost function Tally(groups: seq<Group>, index: seq<Record>): Counters {
    if groups == [] then NO_COUNTS
    else
      var front, last := groups[..|groups| - 1], groups[|groups| - 1];
      Tallied(Tally(front, index), last, SharedRecord(index, last),
              SharedRecord(index, last).offset in Offsets(front, index))
  }

  function Tallied(c: Counters, last: Group, record: Record, repeated: bool): Counters {
    var seen := c.(paths := c.paths + 1, rows := c.rows + |last.ids|);
    if record.flags % 2 == 0 then seen.(missing := c.missing + 1)
    else
      var found := seen.(readable := c.readable + 1, valid := c.valid + |last.ids|);
      if repeated then found.(duplicates := c.duplicates + 1, saved := c.saved + record.length)
      else found.(unique := c.unique + 1)
  }

  /** The sums over one more group. */
  lemma TallyNext(groups: seq<Group>, last: Group, index: seq<Record>)
    ensures var all, record := groups + [last], SharedRecord(index, last);
            && Tally(all, index) == Tallied(Tally(groups, index), last, record, record.offset in Offsets(groups, index))
            && Offsets(all, index) == Offsets(groups, index) + if record.flags % 2 == 1 then {record.offset} else {}
  {
    assert (groups + [last])[..|groups|] == groups;
    OffsetsNext(groups, last, index);
    hide Offsets, SharedRecord, Tallied;
  }

  lemma TokensNext(groups: seq<Group>, last: Group, env: Setting)
    ensures Tokens(groups + [last], env) == Tokens(groups, env) + env.files(last.key).token
    ensures LastKey(groups + [last]) == Some(last.key)
  {
    assert (groups + [last])[..|groups|] == groups;
  }

  /** What the restore loop holds after these groups. */
  ghost predicate Gathered(r: Restoring, groups: seq<Group>, index: seq<Record>, pack: seq<byte>, env: Setting) {
    && r.counters == Tally(groups, index) && r.sources == Tokens(groups, env) && r.last == LastKey(groups)
    && r.seen == Offsets(groups, index) && r.lengthByOffset.Keys == r.seen
    && LengthsHeld(r, groups, index) && Sliceable(r, pack)
  }

  ghost predicate LengthsHeld(r: Restoring, groups: seq<Group>, index: seq<Record>) {
    forall g :: g in groups && HasAudio(index, g) ==>
      SharedRecord(index, g).offset in r.lengthByOffset
      && r.lengthByOffset[SharedRecord(index, g).offset] == SharedRecord(index, g).length
  }

  lemma GroupRecordUniform(index: seq<Record>, group: Group)
    ensures GroupRecord(index, group.ids)
         == if Uniform(index, group) then Ok(SharedRecord(index, group)) else GroupRecord(index, group.ids)
    ensures GroupRecord(index, group.ids).Ok? <==> Uniform(index, group)
  {
    if group.ids != [] {
      assert group.ids[0] in group.ids;
    }
  }

  lemma OffsetsNext(groups: seq<Group>, last: Group, index: seq<Record>)
    ensures Offsets(groups + [last], index)
         == Offsets(groups, index) + if HasAudio(index, last) then {SharedRecord(index, last).offset} else {}
  {
  }

  /** One more group keeps lengths unambiguous exactly when its offset is new or known with its length. */
  lemma LengthsNext(r: Restoring, groups: seq<Group>, last: Group, index: seq<Record>, pack: seq<byte>, env: Setting)
    requires Gathered(r, groups, index, pack, env) && OneLength(groups, index)
    ensures var record := SharedRecord(index, last);
            OneLength(groups + [last], index) <==>
              (HasAudio(index, last) && record.offset in r.lengthByOffset ==>
                 r.lengthByOffset[record.offset] == record.length)
  {
    var record, all := SharedRecord(index, last), groups + [last];
    assert last in all && forall g :: g in groups ==> g in all;
    assert forall g :: g in all ==> g in groups || g == last;
    if HasAudio(index, last) && record.offset in r.lengthByOffset {
      assert record.offset in Offsets(groups, index);
      var g :| g in groups && HasAudio(index, g) && SharedRecord(index, g).offset == record.offset;
    }
    hide SharedRecord, HasAudio, Tally, Tokens;
  }

  lemma TrustedNext(groups: seq<Group>, last: Group, index: seq<Record>, pack: seq<byte>, packBytes: nat)
    ensures Trusted(groups + [last], index, pack, packBytes) <==>
            && Trusted(groups, index, pack, packBytes)
            && Uniform(index, last) && Plausible(SharedRecord(index, last), packBytes, |pack|)
            && OneLength(groups + [last], index)
  {
    var all := groups + [last];
    assert last in all && forall g :: g in groups ==> g in all;
    assert forall g :: g in all ==> g in groups || g == last;
    hide SharedRecord, HasAudio, Uniform, Plausible;
  }

  ghost predicate Sliceable(r: Restoring, pack: seq<byte>) {
    forall ref :: ref in r.digestByRecord ==> Slice(pack, ref.offset, ref.length).Some?
  }

  lemma DigestFound(r: Restoring, pack: seq<byte>, reference: PackRef, env: Setting)
    requires Sliceable(r, pack)
    ensures DigestOf(r, pack, reference, env).Ok? <==> reference.offset + reference.length <= |pack|
  {
  }

  predicate LengthKnown(r: Restoring, record: Record) {
    record.offset in r.lengthByOffset ==> r.lengthByOffset[record.offset] == record.length
  }

  /** One round of the loop refuses its group exactly when the record is not to be trusted. */
  lemma GroupAccepted(
    r: Restoring, last: Group, index: seq<Record>, pack: seq<byte>, packBytes: nat, env: Setting)
    requires Sliceable(r, pack)
    ensures var next, record := RestoreGroup(r, last, index, pack, packBytes, env), SharedRecord(index, last);
            && (next.Ok? <==> Uniform(index, last) && Plausible(record, packBytes, |pack|)
                              && (HasAudio(index, last) ==> LengthKnown(r, record)))
            && (next.Ok? ==> Follows(r, next.value, last, record, pack, env))
  {
    GroupRecordUniform(index, last);
    var record := SharedRecord(index, last);
    DigestFound(r, pack, PackRef(record.offset, record.length), env);
    hide GroupRecord, Uniform, WithAudio, WithoutAudio, SharedRecord, DigestOf, Slice, Sliceable;
    if GroupRecord(index, last.ids).Ok? {
      RoundAccepted(r, last, index, record, pack, packBytes, env);
    }
  }

  ghost predicate Follows(
    r: Restoring, next: Restoring, last: Group, record: Record, pack: seq<byte>, env: Setting)
  {
    if record.flags % 2 == 1 then
      record.offset + record.length <= |pack|
      && exists digest :: next == WithAudio(r, last, record, digest, env.files(last.key).token)
    else next == WithoutAudio(r, last, env.files(last.key).token)
  }

  lemma RoundAccepted(
    r: Restoring, last: Group, index: seq<Record>, record: Record, pack: seq<byte>, packBytes: nat, env: Setting)
    requires GroupRecord(index, last.ids) == Ok(record)
    requires DigestOf(r, pack, PackRef(record.offset, record.length), env).Ok?
             <==> record.offset + record.length <= |pack|
    ensures var next := RestoreGroup(r, last, index, pack, packBytes, env);
            && (next.Ok? <==> Plausible(record, packBytes, |pack|)
                              && (record.flags % 2 == 1 ==> LengthKnown(r, record)))
            && (next.Ok? ==> Follows(r, next.value, last, record, pack, env))
  {
    hide GroupRecord, DigestOf, WithAudio, WithoutAudio;
  }

  /** After an accepted group the loop holds what the longer list stands for. */
  lemma GatheredNext(
    r: Restoring, next: Restoring, groups: seq<Group>, last: Group, index: seq<Record>, pack: seq<byte>, env: Setting)
    requires Gathered(r, groups, index, pack, env)
    requires HasAudio(index, last) ==> LengthKnown(r, SharedRecord(index, last))
    requires Follows(r, next, last, SharedRecord(index, last), pack, env)
    ensures Gathered(next, groups + [last], index, pack, env)
  {
    TallyNext(groups, last, index);
    TokensNext(groups, last, env);
    LengthsGathered(r, next, groups, last, index, pack, env);
    FollowsAdds(r, next, last, SharedRecord(index, last), pack, env);
    hide SharedRecord, Offsets, Tally, Tallied, Tokens, LastKey, LengthsHeld, Sliceable, LengthKnown, Follows;
  }

  lemma FollowsAdds(r: Restoring, next: Restoring, last: Group, record: Record, pack: seq<byte>, env: Setting)
    requires Follows(r, next, last, record, pack, env)
    ensures next.counters == Tallied(r.counters, last, record, record.offset in r.seen)
    ensures next.sources == r.sources + env.files(last.key).token && next.last == Some(last.key)
    ensures next.seen == r.seen + if record.flags % 2 == 1 then {record.offset} else {}
    ensures r.lengthByOffset.Keys == r.seen ==> next.lengthByOffset.Keys == next.seen
  {
    hide Refs;
  }

  lemma LengthsGathered(
    r: Restoring, next: Restoring, groups: seq<Group>, last: Group, index: seq<Record>, pack: seq<byte>, env: Setting)
    requires LengthsHeld(r, groups, index) && Sliceable(r, pack)
    requires HasAudio(index, last) ==> LengthKnown(r, SharedRecord(index, last))
    requires Follows(r, next, last, SharedRecord(index, last), pack, env)
    ensures LengthsHeld(next, groups + [last], index) && Sliceable(next, pack)
  {
    assert forall g :: g in groups + [last] ==> g in groups || g == last;
    hide SharedRecord;
  }

  /** The loop gets through exactly over a trusted index, and then holds what the groups stand for. */
  lemma {:induction false} RestoreAccepts(
    groups: seq<Group>, index: seq<Record>, pack: seq<byte>, packBytes: nat, env: Setting)
    ensures var r := RestoreAll(groups, index, pack, packBytes, env);
            && (r.Ok? <==> Trusted(groups, index, pack, packBytes))
            && (r.Ok? ==> Gathered(r.value, groups, index, pack, env))
  {
    if groups != [] {
      var front, last := groups[..|groups| - 1], groups[|groups| - 1];
      assert groups == front + [last];
      RestoreAccepts(front, index, pack, packBytes, env);
      RestoreAppend(front, last, index, pack, packBytes, env);
      TrustedNext(front, last, index, pack, packBytes);
      var r := RestoreAll(front, index, pack, packBytes, env);
      if r.Ok? {
        GroupAccepted(r.value, last, index, pack, packBytes, env);
        LengthsNext(r.value, front, last, index, pack, env);
        hide RestoreAll, RestoreGroup, Gathered, Follows, Uniform, Plausible, Sliceable;
        var next := RestoreGroup(r.value, last, index, pack, packBytes, env);
        if next.Ok? {
          GatheredNext(r.value, next.value, front, last, index, pack, env);
        }
      }
    }
  }

  /** What a checkpoint has to agree with before its build is continued. */
  ghost predicate Acceptable(
    groups: seq<Group>, index: seq<Record>, pack: seq<byte>, checkpoint: Checkpoint, env: Setting)
  {
    && Trusted(groups, index, pack, checkpoint.packBytes)
    && LastKey(groups) == checkpoint.lastKey
    && Tally(groups, index) == checkpoint.counters
    && env.sha(Tokens(groups, env)) == checkpoint.sourcesSha
  }

  /**
   * A checkpoint is accepted if and only if every row of the groups through its key carries a record
   * to be trusted, that key is still in the database, its counters are those of the records, and the
   * source files hash as they did.
   */
  lemma AcceptedExactly(rows: seq<Entry>, index: seq<Record>, pack: seq<byte>, checkpoint: Checkpoint, env: Setting)
    ensures Restored(rows, index, pack, checkpoint, env).Ok? <==>
            Acceptable(GroupsOf(Keep(rows, Within(None, checkpoint.lastKey))), index, pack, checkpoint, env)
    ensures Restored(rows, index, pack, checkpoint, env).Ok? ==>
              var b := Restored(rows, index, pack, checkpoint, env).value;
              && b.index == index && b.pack == pack
              && b.counters == checkpoint.counters && b.lastKey == checkpoint.lastKey
  {
    hide GroupsOf, Keep, Within, RestoreAll, Trusted, Tally, Tokens, LastKey;
    var groups := GroupsOf(Keep(rows, Within(None, checkpoint.lastKey)));
    RestoreAccepts(groups, index, pack, checkpoint.packBytes, env);
  }

  /** A tally in balance: unique files are different offsets, and every group is one of three kinds. */
  predicate Balanced(c: Counters, groups: nat, offsets: nat) {
    && c.unique == offsets && c.unique + c.duplicates == c.readable
    && c.readable + c.missing == c.paths == groups
  }

  lemma {:induction false} TallyBalanced(groups: seq<Group>, index: seq<Record>)
    ensures Balanced(Tally(groups, index), |groups|, |Offsets(groups, index)|)
  {
    if groups == [] {
      assert Offsets(groups, index) == {};
    } else {
      var front, last := groups[..|groups| - 1], groups[|groups| - 1];
      assert groups == front + [last];
      TallyBalanced(front, index);
      TallyNext(front, last, index);
      TalliedBalanced(Tally(front, index), last, SharedRecord(index, last), |front|, Offsets(front, index));
      hide *;
    }
  }

  lemma TalliedBalanced(c: Counters, last: Group, record: Record, groups: nat, offsets: set<nat>)
    requires Balanced(c, groups, |offsets|)
    ensures Balanced(Tallied(c, last, record, record.offset in offsets), groups + 1,
                     |offsets + if record.flags % 2 == 1 then {record.offset} else {}|)
  {
    assert record.offset in offsets ==> offsets + {record.offset} == offsets;
    assert offsets + {} == offsets;
  }
}
