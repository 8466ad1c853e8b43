/**
 * Moving verified loose audio out of the way, and back: a journaled protocol over a source folder, a
 * quarantine directory and the operating system's Trash, interrupted at any point.
 */
module Cleanup {
  import opened Wrappers
  import opened Text
  import opened Groups
  import opened Slots

  type Files = map<AudioKey, seq<byte>>

  /** A file inside the quarantine: its slot and its path there. */
  type StagePath = (Text, Text)

  type Stage = map<StagePath, seq<byte>>

  datatype Status = Staging | Paused | Quarantined | TrashFailed | RecoveryRequired | Completed

  datatype Marker = Marker(status: Status, movedFiles: nat, movedBytes: nat)

  /** What may happen at any point of a run: nothing, a cancel request, or the end of the process. */
  datatype Signal = Go | Cancel | Crash

  datatype Outcome = Finished | Failed | Cancelled | Crashed

  /** No cancel request and no end of the process. */
  ghost predicate Undisturbed(signals: nat -> Signal) {
    forall i :: signals(i) == Go
  }

  /** The user asks to cancel at some point and keeps asking from then on. */
  ghost predicate CancelledFrom(signals: nat -> Signal, start: nat) {
    forall i :: i >= start ==> signals(i) == Cancel
  }

  ghost predicate NoCrash(signals: nat -> Signal) {
    forall i :: signals(i) != Crash
  }

  lemma SignalAt(signals: nat -> Signal, start: nat, i: nat)
    ensures Undisturbed(signals) ==> signals(i) == Go
    ensures NoCrash(signals) ==> signals(i) != Crash
    ensures CancelledFrom(signals, start) && i >= start ==> signals(i) == Cancel
  {
  }

  /** Whether the active pack and database pass: at first, right before the Trash request, and after it. */
  datatype Checks = Checks(first: bool, before: bool, after: bool)

  /** What the operating system does with the Trash request. */
  datatype TrashResult = Moved | RaisedInPlace | RaisedMoved | LeftInPlace

  /** What the journal says after a Trash request. */
  function StatusAfter(result: TrashResult, reverified: bool): Status {
    if result == RaisedInPlace || result == LeftInPlace then TrashFailed
    else if result == RaisedMoved || !reverified then RecoveryRequired
    else Completed
  }

  predicate Leaves(result: TrashResult) {
    result == Moved || result == RaisedMoved
  }

  lemma MovedLeaves()
    ensures Leaves(Moved) && StatusAfter(Moved, true) == Completed
  {
  }

  /** A journal from which a cleanup concludes that the files are in the Trash already. */
  predicate SaysAway(marker: Marker, stage: Option<Stage>, files: nat) {
    || marker.status == Completed
    || ((marker.status == Quarantined || marker.status == TrashFailed) && marker.movedFiles == files && stage.None?)
  }

  /** The journal, if any, lets a cleanup go on. */
  predicate Resumable(marker: Option<Marker>, stage: Option<Stage>, files: nat) {
    marker.Some? ==> !SaysAway(marker.value, stage, files)
  }

  /** Everything on disk the protocol touches; `original` is the collection as it was found. */
  datatype Disk = Disk(
    source: Files, stage: Option<Stage>, trash: Option<Stage>, marker: Option<Marker>, inventory: Option<Files>)

  /** The fixed facts of a collection. */
  datatype Plan = Plan(order: seq<AudioKey>, packed: Files, slots: map<Text, Text>, original: Files)

  ghost predicate GoodPlan(p: Plan) {
    && Injective(p.slots)
    && (forall i, j :: 0 <= i < j < |p.order| ==> p.order[i] != p.order[j])
    && (forall key :: key in p.order ==> key.source in p.slots && key in p.packed)
  }

  function StagedAt(p: Plan, key: AudioKey): StagePath {
    (if key.source in p.slots then p.slots[key.source] else [], key.file)
  }

  lemma StagedApart(p: Plan, a: AudioKey, b: AudioKey)
    requires GoodPlan(p) && a in p.order && b in p.order && StagedAt(p, a) == StagedAt(p, b)
    ensures a == b
  {
  }

  predicate InStage(d: Disk, path: StagePath) {
    d.stage.Some? && path in d.stage.value
  }

  predicate InTrash(d: Disk, path: StagePath) {
    d.trash.Some? && path in d.trash.value
  }

  /** The file's original bytes are in exactly one place; files outside the plan never leave home. */
  ghost predicate HeldOnce(p: Plan, d: Disk, key: AudioKey)
    requires key in p.original
  {
    var at, bytes := StagedAt(p, key), p.original[key];
    if key in p.order then
      || (key in d.source && d.source[key] == bytes && !InStage(d, at) && !InTrash(d, at))
      || (key !in d.source && InStage(d, at) && d.stage.value[at] == bytes && !InTrash(d, at))
      || (key !in d.source && !InStage(d, at) && InTrash(d, at) && d.trash.value[at] == bytes)
    else key in d.source && d.source[key] == bytes
  }

  ghost predicate NoAudioLost(p: Plan, d: Disk) {
    forall key :: key in p.original ==> HeldOnce(p, d, key)
  }

  /** The path belongs to a file of the plan. */
  ghost predicate Tracked(p: Plan, path: StagePath) {
    exists key :: key in p.order && StagedAt(p, key) == path
  }

  ghost predicate Safe(p: Plan, d: Disk) {
    && NoAudioLost(p, d)
    && (forall key :: key in d.source ==> key in p.original)
    && (d.stage.Some? ==> forall path :: path in d.stage.value ==> Tracked(p, path))
    // The marker is there whenever files may be away from home,
    && (d.stage.Some? || d.trash.Some? ==> d.marker.Some?)
    // and with it the independent inventory of what was taken.
    && (d.marker.Some? ==>
          && (forall key :: key in p.order ==> key in p.original && key in p.packed && p.original[key] == p.packed[key])
          && d.inventory.Some? && Inventoried(p, d.inventory.value))
    // The Trash never holds less than the whole inventory, nor anything else.
    && (d.trash.Some? ==>
          && p.order != []
          && (d.stage.Some? ==> d.stage.value == map[])
          && (forall key :: key in p.order ==> StagedAt(p, key) in d.trash.value)
          && (forall path :: path in d.trash.value ==> Tracked(p, path)))
  }

  ghost predicate Inventoried(p: Plan, inventory: Files) {
    && (forall key :: key in inventory <==> key in p.order && key in p.original)
    && (forall key :: key in inventory ==> inventory[key] == p.original[key])
  }

  /** The staging directory holds exactly the planned files. */
  ghost predicate ExactlyStaged(p: Plan, stage: Stage) {
    && (forall key :: key in p.order && key in p.original ==>
          StagedAt(p, key) in stage && stage[StagedAt(p, key)] == p.original[key])
    && (forall path :: path in stage ==> Tracked(p, path))
  }

  /** Before anything has moved, and after everything is back. */
  lemma WithoutMarkerUntouched(p: Plan, d: Disk)
    requires Safe(p, d) && d.marker.None?
    ensures d.source == p.original
  {
    assert d.source.Keys == p.original.Keys by {
      forall key | key in p.original ensures key in d.source {
        assert HeldOnce(p, d, key);
      }
    }
    forall key | key in p.original ensures d.source[key] == p.original[key] {
      assert HeldOnce(p, d, key);
    }
  }

  /* ---- Single file operations. ---- */

  /** `os.replace(original, staged)`: one atomic rename. */
  function Staged(p: Plan, d: Disk, key: AudioKey): Disk
    requires key in d.source && d.stage.Some?
  {
    d.(source := d.source - {key}, stage := Some(d.stage.value[StagedAt(p, key) := d.source[key]]))
  }

  /** `os.replace(staged, destination)`. */
  function Unstaged(p: Plan, d: Disk, key: AudioKey): Disk
    requires InStage(d, StagedAt(p, key))
  {
    d.(source := d.source[key := d.stage.value[StagedAt(p, key)]], stage := Some(d.stage.value - {StagedAt(p, key)}))
  }

  lemma StagingIsSafe(p: Plan, d: Disk, key: AudioKey)
    requires GoodPlan(p) && Safe(p, d) && d.stage.Some? && key in p.order && key in d.source
    requires d.trash.None?
    ensures Safe(p, Staged(p, d, key))
  {
    var after := Staged(p, d, key);
    forall other | other in p.original ensures HeldOnce(p, after, other) {
      assert HeldOnce(p, d, other);
      if other in p.order && StagedAt(p, other) == StagedAt(p, key) {
        StagedApart(p, other, key);
      }
    }
  }

  lemma UnstagedHeld(p: Plan, d: Disk, key: AudioKey, other: AudioKey)
    requires GoodPlan(p) && key in p.order && InStage(d, StagedAt(p, key)) && key !in d.source
    requires key in p.original && HeldOnce(p, d, key) && other in p.original && HeldOnce(p, d, other)
    ensures HeldOnce(p, Unstaged(p, d, key), other)
  {
    if other in p.order && StagedAt(p, other) == StagedAt(p, key) {
      StagedApart(p, other, key);
    }
  }

  lemma UnstagingIsSafe(p: Plan, d: Disk, key: AudioKey)
    requires GoodPlan(p) && Safe(p, d) && key in p.order && InStage(d, StagedAt(p, key)) && key !in d.source
    ensures Safe(p, Unstaged(p, d, key))
  {
    hide HeldOnce, GoodPlan, Tracked, Inventoried;
    var after := Unstaged(p, d, key);
    assert key in p.original;
    forall other | other in p.original ensures HeldOnce(p, after, other) {
      UnstagedHeld(p, d, key, other);
    }
  }

  lemma MarkerIsSafe(p: Plan, d: Disk, marker: Marker)
    requires Safe(p, d) && d.marker.Some?
    ensures Safe(p, d.(marker := Some(marker)))
  {
    var after := d.(marker := Some(marker));
    forall key | key in p.original ensures HeldOnce(p, after, key) {
      assert HeldOnce(p, d, key);
    }
  }

  /** The first journal, over files that are all at home and as the pack has them. */
  lemma JournallingIsSafe(p: Plan, d: Disk, marker: Marker, made: Files)
    requires GoodPlan(p) && Safe(p, d) && d.marker.None? && d.source == p.original && Inventoried(p, made)
    requires forall key :: key in p.order ==> key in d.source && d.source[key] == p.packed[key]
    ensures Safe(p, d.(marker := Some(marker), inventory := Some(made)))
  {
    var after := d.(marker := Some(marker), inventory := Some(made));
    forall key | key in p.original ensures HeldOnce(p, after, key) {
      assert HeldOnce(p, d, key);
    }
  }

  /** Handing a complete quarantine to the Trash. */
  lemma TrashingIsSafe(p: Plan, d: Disk)
    requires GoodPlan(p) && Safe(p, d) && d.stage.Some? && ExactlyStaged(p, d.stage.value)
    requires p.order != [] && d.trash.None?
    ensures Safe(p, d.(trash := d.stage, stage := None))
  {
    var after := d.(trash := d.stage, stage := None);
    forall key | key in p.original ensures HeldOnce(p, after, key) {
      assert HeldOnce(p, d, key);
    }
  }

  /** The user puts the quarantine back from the Trash. */
  lemma PuttingBackIsSafe(p: Plan, d: Disk)
    requires GoodPlan(p) && Safe(p, d) && d.trash.Some?
    ensures Safe(p, d.(stage := d.trash, trash := None))
  {
    var after := d.(stage := d.trash, trash := None);
    forall key | key in p.original ensures HeldOnce(p, after, key) {
      assert HeldOnce(p, d, key);
    }
  }

  /** Creating or removing an empty quarantine directory. */
  lemma EmptyStageIsSafe(p: Plan, d: Disk, stage: Option<Stage>)
    requires Safe(p, d) && d.marker.Some?
    requires d.stage.None? || d.stage.value == map[]
    requires stage.None? || stage.value == map[]
    ensures Safe(p, d.(stage := stage))
  {
    var after := d.(stage := stage);
    forall key | key in p.original ensures HeldOnce(p, after, key) {
      assert HeldOnce(p, d, key);
    }
  }

  lemma PlannedFileAtHome(p: Plan, d: Disk, key: AudioKey)
    requires Safe(p, d) && key in p.order && key in d.source
    ensures d.trash.None? && !InStage(d, StagedAt(p, key)) && d.source[key] == p.original[key]
  {
    assert key in p.original;
    assert HeldOnce(p, d, key);
  }

  lemma PlannedFileAway(p: Plan, d: Disk, key: AudioKey)
    requires Safe(p, d) && key in p.order && d.marker.Some? && key !in d.source
    ensures key in p.original
    ensures InStage(d, StagedAt(p, key)) ==> d.stage.value[StagedAt(p, key)] == p.original[key] && d.trash.None?
    ensures !InStage(d, StagedAt(p, key)) ==> d.trash.Some?
  {
    assert key in p.original;
    assert HeldOnce(p, d, key);
  }

  function Max(a: nat, b: nat): nat {
    if a > b then a else b
  }

  function Bytes(order: seq<AudioKey>, packed: Files): nat {
    if order == [] then 0
    else
      var key := order[|order| - 1];
      Bytes(order[..|order| - 1], packed) + (if key in packed then |packed[key]| else 0)
  }

  lemma NoBytes(order: seq<AudioKey>, packed: Files)
    ensures Bytes(order[..0], packed) == 0
  {
  }

  lemma BytesPrefix(order: seq<AudioKey>, packed: Files, k: nat)
    requires k < |order|
    ensures Bytes(order[..k + 1], packed) == Bytes(order[..k], packed)
            + (if order[k] in packed then |packed[order[k]]| else 0)
  {
    assert order[..k + 1][..k] == order[..k];
  }

  /* ---- The protocol. ---- */

  class Collection {
    ghost const original: Files
    const order: seq<AudioKey>
    const packed: Files
    const slots: map<Text, Text>
    var source: Files
    var stage: Option<Stage>
    var trash: Option<Stage>
    var marker: Option<Marker>
    var inventory: Option<Files>
    /** What every request to the Trash has held. */
    ghost var trashed: seq<Stage>

    ghost function P(): Plan {
      Plan(order, packed, slots, original)
    }

    ghost function D(): Disk
      reads this
    {
      Disk(source, stage, trash, marker, inventory)
    }

    ghost predicate Valid()
      reads this
    {
      && GoodPlan(P()) && Safe(P(), D())
      && (forall i :: 0 <= i < |trashed| ==> ExactlyStaged(P(), trashed[i]))
    }

    /** A collection nobody has touched; `packed` is what the active pack serves for each file. */
    constructor (source: Files, order: seq<AudioKey>, packed: Files, ids: seq<Text>, hash: Text -> Text)
      requires forall text :: |hash(text)| == 8
      requires forall i, j :: 0 <= i < j < |order| ==> order[i] != order[j]
      requires forall key :: key in order ==> key.source in ids && key in packed
      ensures Valid() && this.source == source == original && stage == None && trash == None && marker == None
      ensures this.order == order && this.packed == packed && trashed == []
    {
      this.original, this.source, this.order, this.packed := source, source, order, packed;
      this.slots := SourceSlots(ids, hash);
      this.stage, this.trash, this.marker, this.inventory, this.trashed := None, None, None, None, [];
      new;
      SourceSlotsInjective(ids, hash);
      forall key | key in order ensures key.source in slots {
        EverySourceHasSlot(ids, hash, key.source);
      }
    }

    function At(key: AudioKey): StagePath {
      (if key.source in slots then slots[key.source] else [], key.file)
    }

    /** `_update_marker`: the new journal replaces the old one atomically. */
    method UpdateMarker(status: Status, files: nat, bytes: nat)
      requires Valid() && marker.Some?
      modifies this`marker
      ensures Valid() && marker == Some(Marker(status, files, bytes))
    {
      MarkerIsSafe(P(), D(), Marker(status, files, bytes));
      marker := Some(Marker(status, files, bytes));
    }

    /** The cancel branch of staging: forget a cleanup that has moved nothing, or journal the pause. */
    method PauseStaging(signals: nat -> Signal, start: nat, files: nat, bytes: nat) returns (outcome: Outcome)
      requires Valid() && marker.Some? && stage.Some? && (trash.Some? ==> marker.value.movedFiles > 0)
      modifies this
      ensures Valid() && source == old(source) && trash == old(trash) && trashed == old(trashed)
      ensures outcome == if signals(start) == Crash then Crashed else Cancelled
      ensures outcome == Crashed ==> marker == old(marker)
      ensures outcome == Cancelled ==>
        if files == 0 && old(stage).value == map[] && old(marker).value.movedFiles == 0
        then stage.None? && marker.None?
        else stage == old(stage)
             && marker == Some(Marker(Paused, Max(files, old(marker).value.movedFiles),
                                      Max(bytes, old(marker).value.movedBytes)))
    {
      if files == 0 && stage.value == map[] && marker.value.movedFiles == 0 {
        EmptyStageIsSafe(P(), D(), None);
        stage := None;
        if signals(start) == Crash {
          return Crashed;
        }
        ForgettingIsSafe(P(), D());
        marker := None;
      } else {
        if signals(start) == Crash {
          return Crashed;
        }
        UpdateMarker(Paused, Max(files, marker.value.movedFiles), Max(bytes, marker.value.movedBytes));
      }
      outcome := Cancelled;
    }

    /** One file of `_stage_verified_files`; fails without touching anything it cannot account for. */
    method StageOne(key: AudioKey) returns (ok: bool, renamed: bool)
      requires Valid() && marker.Some? && stage.Some? && key in order
      modifies this`source, this`stage
      ensures Valid() && stage.Some?
      ensures ok ==> InStage(D(), At(key)) && trash.None? && key in packed
      ensures forall other :: other in order && InStage(old(D()), At(other)) ==> InStage(D(), At(other))
      ensures trash.None? ==> ok
      ensures !ok ==> D() == old(D())
    {
      if key !in source {
        PlannedFileAway(P(), D(), key);
        if At(key) !in stage.value {
          return false, false;
        }
        return stage.value[At(key)] == packed[key], false;
      }
      PlannedFileAtHome(P(), D(), key);
      if At(key) in stage.value || source[key] != packed[key] {
        return false, false;
      }
      StagingIsSafe(P(), D(), key);
      source, stage := source - {key}, Some(stage.value[At(key) := source[key]]);
      return true, true;
    }

    /** The staging directory is created on first use. */
    method OpenStage()
      requires Valid() && marker.Some?
      modifies this`stage
      ensures Valid() && stage.Some? && (old(stage).Some? ==> stage == old(stage))
    {
      if stage.None? {
        EmptyStageIsSafe(P(), D(), Some(map[]));
        stage := Some(map[]);
      }
    }

    /** Every so many renames the journal is brought up to date. */
    method Checkpoint(signal: Signal, files: nat, bytes: nat, moves: nat, checkpointSize: nat)
      returns (crashed: bool, sinceCheckpoint: nat)
      requires Valid() && marker.Some? && files > 0
      modifies this`marker
      ensures Valid() && marker.Some? && (old(marker).value.movedFiles > 0 ==> marker.value.movedFiles > 0)
      ensures old(marker).value.status == Staging ==> marker.value.status == Staging
      ensures crashed ==> signal == Crash
    {
      if moves < checkpointSize {
        return false, moves;
      }
      if signal == Crash {
        return true, moves;
      }
      UpdateMarker(Staging, files, bytes);
      return false, 0;
    }

    /** One round of the loop: the next file is staged, and the journal brought up to date when it is due. */
    method StageNext(
      k: nat, signals: nat -> Signal, start: nat, bytesBefore: nat, moves: nat, checkpointSize: nat)
      returns (outcome: Outcome, at: nat, files: nat, bytes: nat, sinceCheckpoint: nat)
      requires Valid() && marker.Some? && stage.Some? && (trash.Some? ==> marker.value.movedFiles > 0)
      requires k < |order| && bytesBefore == Bytes(order[..k], packed)
      modifies this
      ensures Valid() && marker.Some? && stage.Some? && (trash.Some? ==> marker.value.movedFiles > 0)
      ensures old(marker).value.status == Staging ==> marker.value.status == Staging
      ensures trash == old(trash) && trashed == old(trashed) && start <= at <= start + 1
      ensures outcome == Finished || outcome == Failed || (outcome == Crashed && signals(start + 1) == Crash)
      ensures outcome == Finished ==>
                && InStage(D(), At(order[k])) && trash.None?
                && files == k + 1 && bytes == Bytes(order[..k + 1], packed)
      ensures forall other :: other in order && InStage(old(D()), At(other)) ==> InStage(D(), At(other))
      ensures trash.None? ==> outcome != Failed
    {
      hide Valid, Safe, GoodPlan, ExactlyStaged, Bytes;
      at, files, bytes, sinceCheckpoint := start, k, bytesBefore, moves;
      assert order[k] in order;
      var ok, renamed := StageOne(order[k]);
      if !ok {
        return Failed, at, files, bytes, sinceCheckpoint;
      }
      BytesPrefix(order, packed, k);
      files, bytes := files + 1, bytes + |packed[order[k]]|;
      if renamed {
        var crashed;
        at := at + 1;
        crashed, sinceCheckpoint := Checkpoint(signals(at), files, bytes, sinceCheckpoint + 1, checkpointSize);
        if crashed {
          return Crashed, at, files, bytes, sinceCheckpoint;
        }
      }
      outcome := Finished;
    }

    /** `_stage_verified_files`. */
    method StageFiles(signals: nat -> Signal, start: nat, checkpointSize: nat)
      returns (outcome: Outcome, at: nat, files: nat, bytes: nat)
      requires Valid() && marker.Some? && (trash.Some? ==> marker.value.movedFiles > 0) && order != []
      requires marker.value.status == Staging
      modifies this
      ensures Valid() && trash == old(trash) && trashed == old(trashed) && Resumable(marker, stage, |order|)
      ensures outcome == Finished ==>
                && marker == Some(Marker(Quarantined, |order|, Bytes(order, packed)))
                && files == |order| && bytes == Bytes(order, packed)
                && stage.Some? && trash.None? && forall key :: key in order ==> InStage(D(), At(key))
      ensures Undisturbed(signals) && trash.None? ==> outcome == Finished
      // A standing cancel request stops it, and it leaves either a journaled pause or nothing at all.
      ensures CancelledFrom(signals, start + |order|) ==> outcome != Finished
      ensures CancelledFrom(signals, start + |order|) && trash.None? && NoCrash(signals) ==> outcome == Cancelled
      ensures outcome == Cancelled ==>
                if marker.None? then stage.None?
                else stage.Some? && marker.value.status == Paused
                     && marker.value.movedFiles >= files && marker.value.movedBytes >= bytes
    {
      hide Valid, Safe, GoodPlan, ExactlyStaged, Bytes, Undisturbed, CancelledFrom, NoCrash, At;
      NoBytes(order, packed);
      at, files, bytes := start, 0, 0;
      ghost var polled := start;
      SignalAt(signals, 0, at);
      if signals(at) == Crash {
        return Crashed, at, files, bytes;
      }
      OpenStage();
      var sinceCheckpoint := 0;
      var k := 0;
      while k < |order|
        invariant 0 <= k <= |order| && files == k && bytes == Bytes(order[..k], packed)
        invariant Valid() && marker.Some? && stage.Some? && (trash.Some? ==> marker.value.movedFiles > 0)
        invariant trash == old(trash) && trashed == old(trashed) && marker.value.status == Staging
        invariant k > 0 ==> trash.None?
        invariant at >= polled >= start + k && (k > 0 ==> polled > start && signals(polled) == Go)
        invariant forall j :: 0 <= j < k ==> InStage(D(), At(order[j]))
      {
        at := at + 1;
        polled := at;
        SignalAt(signals, start + |order|, at);
        SignalAt(signals, start + |order|, at + 1);
        if signals(at) == Cancel {
          outcome := PauseStaging(signals, at + 1, files, bytes);
          return;
        }
        if signals(at) == Crash {
          return Crashed, at, files, bytes;
        }
        outcome, at, files, bytes, sinceCheckpoint :=
          StageNext(k, signals, at, bytes, sinceCheckpoint, checkpointSize);
        if outcome != Finished {
          return;
        }
        k := k + 1;
      }
      assert order[..k] == order;
      SignalAt(signals, start + |order|, polled);
      at := at + 1;
      SignalAt(signals, start + |order|, at);
      if signals(at) == Crash {
        return Crashed, at, files, bytes;
      }
      UpdateMarker(Quarantined, files, bytes);
      outcome := Finished;
    }

    /** `_verify_stage_inventory`: the quarantine holds the referenced files, all of them, and nothing else. */
    method VerifyStage() returns (ok: bool)
      requires Valid() && marker.Some? && stage.Some?
      ensures ok <==> ExactlyStaged(P(), stage.value)
    {
      PlannedAsPacked(P(), D());
      hide Valid, Safe, GoodPlan, Tracked, ExactlyStaged, NoAudioLost;
      ok := CheckStage(order, packed, slots, stage.value, original);
    }

    /** `_trash_quarantine`; the Trash only ever sees a complete quarantine. */
    method TrashQuarantine(signals: nat -> Signal, start: nat, checks: Checks, result: TrashResult)
      returns (outcome: Outcome)
      requires Valid() && marker.Some? && order != []
      modifies this
      ensures Valid()
      ensures trashed == old(trashed) || (old(stage).Some? && trashed == old(trashed) + [old(stage).value])
      ensures outcome == Finished ==>
                && trashed != old(trashed) && stage.None? && trash == old(stage)
                && marker.Some? && marker.value.status == Completed
      // Without a request nothing changes; a request is made of every complete quarantine.
      ensures trashed == old(trashed) ==> D() == old(D()) && outcome != Finished
      ensures trashed != old(trashed) <==>
                signals(start) == Go && checks.before && old(stage).Some? && ExactlyStaged(P(), old(stage).value)
      ensures signals(start) == Cancel ==> outcome == Cancelled
      ensures !Leaves(result) && Resumable(old(marker), old(stage), |order|) ==>
                trash == old(trash) && Resumable(marker, stage, |order|)
      // A request that returns is journaled with what became of the quarantine.
      ensures trashed != old(trashed) ==>
                && (if Leaves(result) then stage.None? && trash == old(stage) else stage == old(stage) && trash.None?)
                && (signals(start + 1) != Crash ==>
                      && marker == Some(Marker(StatusAfter(result, checks.after), |order|, Bytes(order, packed)))
                      && (outcome == Finished <==> StatusAfter(result, checks.after) == Completed))
    {
      hide Safe, GoodPlan, ExactlyStaged, Bytes;
      if signals(start) == Cancel {
        return Cancelled;
      }
      if signals(start) == Crash {
        return Crashed;
      }
      if !checks.before || stage.None? {
        return Failed;
      }
      var exact := VerifyStage();
      if !exact {
        return Failed;
      }
      SomethingStaged(P(), D());
      TrashingIsSafe(P(), D());
      trashed := trashed + [stage.value];
      if Leaves(result) {
        trash, stage := stage, None;
      }
      if signals(start + 1) == Crash {
        return Crashed;
      }
      if result == RaisedInPlace || result == LeftInPlace {
        UpdateMarker(TrashFailed, |order|, Bytes(order, packed));
        return Failed;
      }
      if result == RaisedMoved || !checks.after {
        UpdateMarker(RecoveryRequired, |order|, Bytes(order, packed));
        return Failed;
      }
      UpdateMarker(Completed, |order|, Bytes(order, packed));
      outcome := Finished;
    }

    lemma PlannedKey(key: AudioKey)
      requires Valid() && key in order
      ensures key in packed
      ensures marker.Some? && key in source ==> source[key] == packed[key]
    {
      assert key in P().order;
      if marker.Some? && key in source {
        PlannedFileAtHome(P(), D(), key);
      }
    }

    /** `_scan_plan`: how many planned files are already away, and whether the others look right. */
    method ScanPlan(allowMissing: bool) returns (ok: bool, missing: nat, missingBytes: nat)
      requires Valid() && (allowMissing ==> marker.Some?)
      ensures ok && !allowMissing ==> missing == 0 && forall key :: key in order ==> key in source
      ensures (exists key :: key in order && key !in source) && ok ==> missing > 0
      ensures allowMissing ==> ok
      ensures (forall key :: key in order ==> key in source && key in packed && source[key] == packed[key]) ==> ok
    {
      forall key | key in order
        ensures key in packed && (marker.Some? && key in source ==> source[key] == packed[key])
      {
        PlannedKey(key);
      }
      hide Valid;
      ok, missing, missingBytes := ScanFiles(order, packed, source, allowMissing);
    }

    /** `_create_cleanup_inventory`: every planned file is read and compared with the pack. */
    method CreateInventory() returns (ok: bool, made: Files)
      requires Valid() && marker.None?
      requires forall key :: key in order ==> key in source
      ensures ok ==> Inventoried(P(), made)
      ensures ok <==> forall key :: key in order ==> source[key] == packed[key]
    {
      WithoutMarkerUntouched(P(), D());
      made := map[];
      var k := 0;
      while k < |order|
        invariant 0 <= k <= |order|
        invariant forall key :: key in made <==> key in order[..k]
        invariant forall key :: key in made ==> made[key] == source[key]
        invariant forall j :: 0 <= j < k ==> source[order[j]] == packed[order[j]]
      {
        var key := order[k];
        assert key in P().order;
        if source[key] != packed[key] {
          return false, map[];
        }
        assert order[..k + 1] == order[..k] + [key];
        made := made[key := source[key]];
        k := k + 1;
      }
      assert order[..k] == order;
      ok := true;
    }

    /** The journal becomes durable before anything is moved. */
    method WriteJournal(missing: nat, missingBytes: nat, made: Files)
      requires Valid() && (marker.None? ==> Inventoried(P(), made))
      requires marker.None? ==> forall key :: key in order ==> key in source && source[key] == packed[key]
      modifies this
      ensures Valid() && marker == Some(Marker(Staging, missing, missingBytes))
      ensures source == old(source) && stage == old(stage) && trash == old(trash) && trashed == old(trashed)
    {
      if marker.None? {
        WithoutMarkerUntouched(P(), D());
        JournallingIsSafe(P(), D(), Marker(Staging, missing, missingBytes), made);
        inventory := Some(made);
      } else {
        MarkerIsSafe(P(), D(), Marker(Staging, missing, missingBytes));
      }
      marker := Some(Marker(Staging, missing, missingBytes));
    }

    /**
     * `trash_verified_loose_audio`. `checks` says when the active pack and database pass their own
     * checks, and `result` what the Trash does.
     */
    method TrashVerified(signals: nat -> Signal, checks: Checks, result: TrashResult, checkpointSize: nat)
      returns (outcome: Outcome)
      requires Valid()
      modifies this
      ensures Valid()
      ensures |trashed| <= |old(trashed)| + 1 && old(trashed) <= trashed
      // It finishes on the word of the journal, or by handing the whole quarantine to the Trash.
      ensures outcome == Finished ==>
                && marker.Some? && marker.value.status == Completed
                && (trashed == old(trashed) ==> D() == old(D()))
                && (trashed != old(trashed) ==> stage.None? && trash == Some(trashed[|old(trashed)|]))
      // A completed journal is believed, and so is one whose whole quarantine has vanished.
      ensures checkpointSize > 0 && old(marker).Some? && old(marker).value.status == Completed
              ==> outcome == Finished && D() == old(D()) && trashed == old(trashed)
      ensures signals(0) != Crash && checkpointSize > 0 && old(marker).Some?
              && old(marker).value.status != Completed && SaysAway(old(marker).value, old(stage), |order|)
              ==> outcome == Failed && trashed == old(trashed)
                  && D() == old(D()).(marker := Some(old(marker).value.(status := RecoveryRequired)))
      // No file moves unless the active pack passes, and none reaches the Trash unless it passes again.
      ensures !checks.first || order == [] || checkpointSize == 0
              ==> trashed == old(trashed) && source == old(source) && stage == old(stage) && trash == old(trash)
      ensures (!checks.first || signals(0) == Cancel)
              && Resumable(old(marker), old(stage), |order|)
              ==> outcome != Finished && D() == old(D()) && trashed == old(trashed)
      ensures !checks.before ==> trashed == old(trashed)
      // A standing cancel request keeps everything out of the Trash.
      ensures CancelledFrom(signals, 1 + |order|) ==> trashed == old(trashed)
      // Unless the quarantine has left, the cleanup can go on later, wherever it was interrupted.
      ensures !Leaves(result) && Resumable(old(marker), old(stage), |order|) ==>
                trash == old(trash) && Resumable(marker, stage, |order|)
      // Otherwise an undisturbed cleanup reaches the Trash, and the journal says what came of it.
      ensures Undisturbed(signals) && checkpointSize > 0 && checks.first && checks.before && order != []
              && old(trash).None? && Startable(old(D())) && Resumable(old(marker), old(stage), |order|)
              ==> Requested(result, checks.after, outcome, old(trashed))
    {
      hide Valid, Safe, GoodPlan, ExactlyStaged;
      if checkpointSize == 0 {
        return Failed;
      }
      if marker.None? && stage.Some? {
        return Failed;
      }
      if marker.Some? && marker.value.status == Completed {
        return Finished;
      }
      if marker.Some? && (marker.value.status == Quarantined || marker.value.status == TrashFailed)
         && marker.value.movedFiles == |order| && stage.None?
      {
        if signals(0) == Crash {
          return Crashed;
        }
        UpdateMarker(RecoveryRequired, marker.value.movedFiles, marker.value.movedBytes);
        return Failed;
      }
      if !checks.first || order == [] {
        return Failed;
      }
      outcome := StartCleanup(signals, checks, result, checkpointSize);
    }

    /** A cleanup may go on from a journal, or start over files that are all as the pack has them. */
    ghost predicate Startable(d: Disk) {
      if d.marker.Some? then true
      else
        && d.stage.None?
        && forall key :: key in order ==> key in d.source && key in packed && d.source[key] == packed[key]
    }

    /** The Trash has been asked for the whole collection, with this result. */
    ghost predicate Requested(result: TrashResult, reverified: bool, outcome: Outcome, before: seq<Stage>)
      reads this
    {
      && |trashed| == |before| + 1 && marker.Some?
      && marker.value.status == StatusAfter(result, reverified) && marker.value.movedFiles == |order|
      && (outcome == Finished <==> StatusAfter(result, reverified) == Completed)
      && (if Leaves(result) then stage.None? && trash.Some? else stage.Some? && trash.None?)
    }

    /** The rest, once the pack is verified: plan, journal, stage, trash. */
    method StartCleanup(signals: nat -> Signal, checks: Checks, result: TrashResult, checkpointSize: nat)
      returns (outcome: Outcome)
      requires Valid() && order != []
      modifies this
      ensures Valid()
      ensures |trashed| <= |old(trashed)| + 1 && old(trashed) <= trashed
      ensures outcome == Finished ==>
                && marker.Some? && marker.value.status == Completed
                && trashed != old(trashed) && stage.None? && trash == Some(trashed[|old(trashed)|])
      ensures signals(0) == Cancel ==> outcome != Finished && D() == old(D()) && trashed == old(trashed)
      ensures !Leaves(result) && Resumable(old(marker), old(stage), |order|) ==>
                trash == old(trash) && Resumable(marker, stage, |order|)
      ensures !checks.before || CancelledFrom(signals, 1 + |order|) ==> trashed == old(trashed)
      ensures Undisturbed(signals) && checks.before && old(trash).None? && Startable(old(D()))
              ==> Requested(result, checks.after, outcome, old(trashed))
    {
      hide Valid, Safe, GoodPlan, ExactlyStaged, Bytes;
      var ok, missing, missingBytes := ScanPlan(marker.Some?);
      if !ok {
        return Failed;
      }
      var made: Files := map[];
      if marker.None? {
        ok, made := CreateInventory();
        if !ok {
          return Failed;
        }
      }
      if signals(0) == Cancel {
        return Cancelled;
      }
      if signals(0) == Crash {
        return Crashed;
      }
      TrashedIsMissing();
      WriteJournal(missing, missingBytes, made);
      var at, files, bytes;
      outcome, at, files, bytes := StageFiles(signals, 1, checkpointSize);
      if outcome != Finished {
        return;
      }
      if files != |order| || bytes != Bytes(order, packed) {
        return Failed;
      }
      StagedExactly();
      outcome := TrashQuarantine(signals, at + 1, checks, result);
    }

    /** While the quarantine is in the Trash, every planned file counts as missing. */
    lemma TrashedIsMissing()
      requires Valid() && order != []
      ensures trash.Some? ==> exists key :: key in order && key !in source
    {
      if trash.Some? {
        var key := order[0];
        assert key in P().order && key in P().original;
        assert StagedAt(P(), key) in trash.value;
        assert HeldOnce(P(), D(), key);
      }
    }

    lemma StagedExactly()
      requires Valid() && marker.Some? && stage.Some? && forall key :: key in order ==> InStage(D(), At(key))
      ensures ExactlyStaged(P(), stage.value)
    {
      forall key | key in order && key in original
        ensures StagedAt(P(), key) in stage.value && stage.value[StagedAt(P(), key)] == original[key]
      {
        assert key in P().original && InStage(D(), At(key));
        assert HeldOnce(P(), D(), key);
      }
    }

    /** With every planned file at home, nothing is left anywhere else. */
    lemma AllHome()
      requires Valid() && forall key :: key in order ==> key in source
      ensures trash.None? && (stage.Some? ==> stage.value == map[])
    {
      if trash.Some? {
        PlannedFileAtHome(P(), D(), order[0]);
      }
      if stage.Some? {
        forall path | Tracked(P(), path) ensures path !in stage.value {
          var key :| key in P().order && StagedAt(P(), key) == path;
          PlannedFileAtHome(P(), D(), key);
        }
        assert stage.value.Keys == {};
      }
    }

    /** With every planned file at home, the source folder is as it was found. */
    lemma HomeIsOriginal()
      requires Valid() && forall key :: key in order ==> key in source
      ensures source == original
    {
      forall key | key in original ensures key in source && source[key] == original[key] {
        assert HeldOnce(P(), D(), key);
      }
      assert source.Keys == original.Keys;
    }

    lemma InventoryHas(key: AudioKey)
      requires Valid() && marker.Some? && key in order
      ensures inventory.Some? && key in inventory.value && key in original && inventory.value[key] == original[key]
    {
      assert key in P().order;
    }

    /** One file of the restore loop. */
    method RestoreOne(key: AudioKey) returns (ok: bool)
      requires Valid() && marker.Some? && key in order
      modifies this`source, this`stage
      ensures Valid() && (stage.Some? <==> old(stage).Some?)
      ensures ok ==> key in source
      ensures forall other :: other in old(source) ==> other in source
      ensures trash.None? ==> ok
      ensures !ok ==> D() == old(D())
    {
      InventoryHas(key);
      hide Safe, GoodPlan;
      var staged, home := stage.Some? && At(key) in stage.value, key in source;
      if home {
        PlannedFileAtHome(P(), D(), key);
      } else {
        PlannedFileAway(P(), D(), key);
      }
      if staged == home {
        return false;
      }
      if (if staged then stage.value[At(key)] else source[key]) != inventory.value[key] {
        return false;
      }
      if staged {
        UnstagingIsSafe(P(), D(), key);
        source, stage := source[key := stage.value[At(key)]], Some(stage.value - {At(key)});
      }
      ok := true;
    }

    /** Files of the quarantine that the inventory does not name stop a restore before it starts. */
    method TrackedOnly() returns (ok: bool)
      requires Valid() && marker.Some?
      ensures ok
    {
      if stage.None? {
        return true;
      }
      var known := set key | key in inventory.value :: At(key);
      forall path | path in stage.value ensures path in known {
        assert Tracked(P(), path);
        var key :| key in P().order && StagedAt(P(), key) == path;
        InventoryHas(key);
      }
      ok := stage.value.Keys <= known;
    }

    /** The final pass: every destination is read again. */
    method VerifyDestinations() returns (ok: bool)
      requires Valid() && marker.Some?
      ensures ok <==> forall key :: key in order ==> key in source
    {
      hide GoodPlan;
      var k := 0;
      while k < |order|
        invariant 0 <= k <= |order|
        invariant forall j :: 0 <= j < k ==> order[j] in source
      {
        var key := order[k];
        assert key in order;
        InventoryHas(key);
        if key !in source {
          return false;
        }
        PlannedFileAtHome(P(), D(), key);
        if source[key] != inventory.value[key] {
          return false;
        }
        k := k + 1;
      }
      ok := true;
    }

    /** `restore_quarantined_audio`. */
    method Restore(signals: nat -> Signal) returns (outcome: Outcome)
      requires Valid()
      modifies this
      ensures Valid() && trashed == old(trashed)
      ensures outcome == Finished ==> source == original && stage.None? && trash.None? && marker.None?
      // The marker is cleared only after every destination was verified.
      ensures old(marker).Some? && marker.None? ==> source == original && stage.None? && trash.None?
      // The process may end with everything at home and the marker still there.
      ensures (forall i :: 0 <= i <= |order| ==> signals(i) == Go) && signals(|order| + 1) == Crash
              && old(marker).Some? && old(trash).None?
              ==> outcome == Crashed && marker == old(marker) && source == original && stage.None? && trash.None?
      ensures Undisturbed(signals) && old(marker).Some? && old(trash).None? ==> outcome == Finished
    {
      hide Valid, Safe, GoodPlan;
      if marker.None? {
        return Failed;
      }
      var tracked := TrackedOnly();
      if !tracked {
        return Failed;
      }
      var k := 0;
      while k < |order|
        invariant 0 <= k <= |order|
        invariant Valid() && marker.Some? && marker == old(marker) && trash == old(trash) && trashed == old(trashed)
        invariant forall j :: 0 <= j < k ==> order[j] in source
      {
        if signals(k) == Cancel {
          return Cancelled;
        }
        if signals(k) == Crash {
          return Crashed;
        }
        assert order[k] in order;
        var ok := RestoreOne(order[k]);
        if !ok {
          return Failed;
        }
        k := k + 1;
      }
      outcome := FinishRestore(signals, k);
    }

    /** After the last file: remove the empty quarantine, verify again, clear the journal. */
    method FinishRestore(signals: nat -> Signal, at: nat) returns (outcome: Outcome)
      requires Valid() && marker.Some? && forall j :: 0 <= j < |order| ==> order[j] in source
      modifies this
      ensures Valid() && trashed == old(trashed)
      ensures outcome == Finished ==> source == original && stage.None? && trash.None? && marker.None?
      ensures marker.None? ==> source == original && stage.None? && trash.None?
      ensures Undisturbed(signals) ==> outcome == Finished
      // The process may end with the quarantine gone and the marker still there.
      ensures signals(at) == Go && signals(at + 1) == Crash
              ==> outcome == Crashed && marker == old(marker) && stage.None? && trash.None? && source == original
    {
      AllHome();
      HomeIsOriginal();
      hide Safe, GoodPlan;
      if signals(at) != Go {
        return if signals(at) == Cancel then Cancelled else Crashed;
      }
      if stage.Some? {
        if stage.value != map[] {
          return Failed;
        }
        EmptyStageIsSafe(P(), D(), None);
        stage := None;
      }
      if signals(at + 1) != Go {
        return if signals(at + 1) == Cancel then Cancelled else Crashed;
      }
      var verified := VerifyDestinations();
      if !verified {
        return Failed;
      }
      ForgettingIsSafe(P(), D());
      marker := None;
      WithoutMarkerUntouched(P(), D());
      if signals(at + 2) == Crash {
        return Crashed;
      }
      inventory := None;
      outcome := Finished;
    }

    /**
     * A cleanup after such an end, when every file is at home: it takes them to the Trash if and
     * only if the journal does not say that they are there already. Otherwise it reports a finished
     * cleanup, or a quarantine to be restored from a Trash that does not have it.
     */
    method CleanAfterRestore(signals: nat -> Signal, checkpointSize: nat) returns (reported: Outcome)
      requires Valid() && marker.Some? && stage.None? && order != [] && checkpointSize > 0
      requires Undisturbed(signals) && forall key :: key in order ==> key in source
      modifies this
      ensures Valid() && marker.Some?
      ensures trash.Some? <==> !SaysAway(old(marker).value, None, |order|)
      ensures trash.Some? ==> reported == Finished && marker.value.status == Completed
      ensures trash.None? ==>
                && source == original && stage.None?
                && reported == (if old(marker).value.status == Completed then Finished else Failed)
                && marker.value.status
                   == (if old(marker).value.status == Completed then Completed else RecoveryRequired)
    {
      AllHome();
      HomeIsOriginal();
      hide Valid;
      reported := TrashVerified(signals, Checks(true, true, true), Moved, checkpointSize);
    }

    /** The user restores the quarantine directory from the Trash. */
    method PutBack()
      requires Valid()
      modifies this
      ensures Valid() && trash.None? && marker == old(marker) && source == old(source) && trashed == old(trashed)
    {
      if trash.Some? {
        PuttingBackIsSafe(P(), D());
        stage, trash := trash, None;
      }
    }

    /** Any history of cleanups, restores and put-backs, each interrupted anywhere or not at all. */
    method Perform(commands: seq<Command>)
      requires Valid()
      modifies this
      ensures Valid() && old(trashed) <= trashed
    {
      hide Valid;
      for k := 0 to |commands|
        invariant Valid() && old(trashed) <= trashed
      {
        match commands[k]
        case Clean(a) =>
          var _ := TrashVerified(a.signals, a.checks, a.result, a.checkpointSize);
        case Return(signals) =>
          var _ := Restore(signals);
        case Bring =>
          PutBack();
      }
    }

    /**
     * Restore undoes everything: after any history, putting the quarantine back and restoring once
     * without interruption leaves the collection as it was found, with no quarantine and no marker.
     */
    method RestoreAfter(commands: seq<Command>)
      requires Valid()
      modifies this
      ensures Valid() && source == original && stage.None? && trash.None? && marker.None?
    {
      hide Valid;
      Perform(commands);
      PutBack();
      if marker.Some? {
        var outcome := Restore(_ => Go);
      } else {
        NothingAway();
      }
    }

    /**
     * A cleanup always gets there: after any number of attempts, each cancelled, ended anywhere or
     * refused by the Trash, one undisturbed attempt hands exactly the planned files to the Trash.
     */
    method FinishAfter(attempts: seq<Attempt>, checkpointSize: nat)
      requires Valid() && order != [] && checkpointSize > 0 && trash.None? && Resumable(marker, stage, |order|)
      requires forall key :: key in order ==> key in original && key in packed && original[key] == packed[key]
      requires forall i :: 0 <= i < |attempts| ==> !Leaves(attempts[i].result)
      modifies this
      ensures Valid() && marker.Some? && marker.value.status == Completed && stage.None?
      ensures trash.Some? && ExactlyStaged(P(), trash.value)
      ensures forall key :: key in original ==> (key in source <==> key !in order)
    {
      hide Valid, Leaves, Safe, SaysAway;
      for k := 0 to |attempts|
        invariant Valid() && trash.None? && Resumable(marker, stage, |order|)
      {
        var a := attempts[k];
        var _ := TrashVerified(a.signals, a.checks, a.result, a.checkpointSize);
      }
      UntouchedStartable();
      var outcome := TrashVerified(_ => Go, Checks(true, true, true), Moved, checkpointSize);
      MovedLeaves();
      AllAway();
    }

    lemma UntouchedStartable()
      requires Valid()
      requires forall key :: key in order ==> key in original && key in packed && original[key] == packed[key]
      ensures Startable(D())
    {
      if marker.None? {
        WithoutMarkerUntouched(P(), D());
      }
    }

    /** Once the quarantine is in the Trash, it holds the planned files, and the rest are at home. */
    lemma AllAway()
      requires Valid() && trash.Some?
      ensures ExactlyStaged(P(), trash.value)
      ensures forall key :: key in original ==> (key in source <==> key !in order)
    {
      forall key | key in original
        ensures key in source <==> key !in order
        ensures key in order ==>
                  StagedAt(P(), key) in trash.value && trash.value[StagedAt(P(), key)] == original[key]
      {
        assert HeldOnce(P(), D(), key);
      }
    }

    lemma NothingAway()
      requires Valid() && marker.None?
      ensures source == original && stage.None? && trash.None?
    {
      WithoutMarkerUntouched(P(), D());
    }
  }

  /** One try at a cleanup: what interrupts it, what its checks find and what the Trash does. */
  datatype Attempt = Attempt(signals: nat -> Signal, checks: Checks, result: TrashResult, checkpointSize: nat)

  datatype Command =
    | Clean(attempt: Attempt)
    | Return(signals: nat -> Signal)
    | Bring

  method ScanFiles(order: seq<AudioKey>, packed: Files, source: Files, allowMissing: bool)
    returns (ok: bool, missing: nat, missingBytes: nat)
    requires forall key :: key in order ==> key in packed
    ensures ok <==> forall key :: key in order ==>
                      if key in source then |source[key]| == |packed[key]| else allowMissing
    ensures ok ==> (missing == 0 <==> forall key :: key in order ==> key in source)
  {
    ok, missing, missingBytes := true, 0, 0;
    var k := 0;
    while k < |order|
      invariant 0 <= k <= |order|
      invariant missing == 0 <==> forall j :: 0 <= j < k ==> order[j] in source
      invariant forall j :: 0 <= j < k ==>
                  if order[j] in source then |source[order[j]]| == |packed[order[j]]| else allowMissing
    {
      var key := order[k];
      assert key in order;
      if key in source {
        if |source[key]| != |packed[key]| {
          return false, 0, 0;
        }
      } else {
        if !allowMissing {
          return false, 0, 0;
        }
        missing, missingBytes := missing + 1, missingBytes + |packed[key]|;
      }
      k := k + 1;
    }
  }

  method CheckStage(order: seq<AudioKey>, packed: Files, slots: map<Text, Text>, stage: Stage, ghost original: Files)
    returns (ok: bool)
    requires forall key :: key in order ==> key in original && key in packed && original[key] == packed[key]
    ensures ok <==> ExactlyStaged(Plan(order, packed, slots, original), stage)
  {
    hide ExactlyStaged, Expected;
    ghost var p := Plan(order, packed, slots, original);
    var expected: set<StagePath> := {};
    NothingExpected(p);
    var k := 0;
    while k < |order|
      invariant 0 <= k <= |order|
      invariant expected == Expected(p, k)
      invariant forall j :: 0 <= j < k ==>
                  StagedAt(p, order[j]) in stage && stage[StagedAt(p, order[j])] == packed[order[j]]
    {
      var key := order[k];
      assert key in order;
      var at := (if key.source in slots then slots[key.source] else [], key.file);
      ExpectedNext(p, k);
      if at !in stage || stage[at] != packed[key] {
        StageLacks(p, stage, key);
        return false;
      }
      expected := expected + {at};
      k := k + 1;
    }
    ok := stage.Keys == expected;
    VerifiedStage(p, stage);
  }

  /** Once there is a journal, every planned file was found as the pack has it. */
  lemma PlannedAsPacked(p: Plan, d: Disk)
    requires Safe(p, d) && d.marker.Some?
    ensures forall key :: key in p.order ==> key in p.original && key in p.packed && p.original[key] == p.packed[key]
  {
  }

  ghost function Expected(p: Plan, k: nat): set<StagePath>
    requires k <= |p.order|
  {
    set j | 0 <= j < k :: StagedAt(p, p.order[j])
  }

  lemma NothingExpected(p: Plan)
    ensures Expected(p, 0) == {}
  {
  }

  lemma StageLacks(p: Plan, stage: Stage, key: AudioKey)
    requires key in p.order && key in p.original
    requires StagedAt(p, key) !in stage || stage[StagedAt(p, key)] != p.original[key]
    ensures !ExactlyStaged(p, stage)
  {
  }

  lemma ExpectedNext(p: Plan, k: nat)
    requires k < |p.order|
    ensures Expected(p, k + 1) == Expected(p, k) + {StagedAt(p, p.order[k])}
  {
  }

  lemma ExpectedTracked(p: Plan, path: StagePath)
    ensures path in Expected(p, |p.order|) <==> Tracked(p, path)
  {
    if Tracked(p, path) {
      var key :| key in p.order && StagedAt(p, key) == path;
      var j :| 0 <= j < |p.order| && p.order[j] == key;
      assert path == StagedAt(p, p.order[j]);
    }
    if path in Expected(p, |p.order|) {
      var j :| 0 <= j < |p.order| && path == StagedAt(p, p.order[j]);
      assert p.order[j] in p.order;
    }
  }

  lemma VerifiedStage(p: Plan, stage: Stage)
    requires forall key :: key in p.order ==> key in p.original && key in p.packed && p.original[key] == p.packed[key]
    requires forall j :: 0 <= j < |p.order| ==>
               StagedAt(p, p.order[j]) in stage && stage[StagedAt(p, p.order[j])] == p.packed[p.order[j]]
    ensures stage.Keys == Expected(p, |p.order|) <==> ExactlyStaged(p, stage)
  {
    hide Tracked, StagedAt;
    forall path ensures path in Expected(p, |p.order|) <==> Tracked(p, path) {
      ExpectedTracked(p, path);
    }
    forall key | key in p.order ensures StagedAt(p, key) in stage && stage[StagedAt(p, key)] == p.original[key] {
      var j :| 0 <= j < |p.order| && p.order[j] == key;
    }
  }

  lemma SomethingStaged(p: Plan, d: Disk)
    requires Safe(p, d) && d.marker.Some? && p.order != [] && d.stage.Some? && ExactlyStaged(p, d.stage.value)
    ensures d.trash.None?
  {
    var key := p.order[0];
    assert key in p.order;
    assert StagedAt(p, key) in d.stage.value;
  }

  /** Clearing the journal once nothing is away from home. */
  lemma ForgettingIsSafe(p: Plan, d: Disk)
    requires Safe(p, d) && d.stage.None? && d.trash.None?
    ensures Safe(p, d.(marker := None)) && Safe(p, d.(marker := None, inventory := None))
  {
    forall key | key in p.original
      ensures HeldOnce(p, d.(marker := None), key) && HeldOnce(p, d.(marker := None, inventory := None), key)
    {
      assert HeldOnce(p, d, key);
    }
  }

  /* ---- Both misreports do happen. ---- */

  /** Nothing happens until the restore has put everything back and removed the quarantine. */
  function CutShort(files: nat): nat -> Signal {
    i => if i <= files then Go else Crash
  }

  /**
   * A Trash that leaves the quarantine in place, a restore that ends before the marker is cleared,
   * and another cleanup: it asks for a quarantine that is not in the Trash, and all files are at home.
   */
  method VanishedMisreport(source: Files, order: seq<AudioKey>, packed: Files, ids: seq<Text>, hash: Text -> Text)
    returns (c: Collection, reported: Outcome)
    requires Collectible(source, order, packed, ids, hash) && order != []
    ensures fresh(c) && c.Valid() && reported == Failed
    ensures c.marker.Some? && c.marker.value.status == RecoveryRequired
    ensures c.source == source && c.stage.None? && c.trash.None?
  {
    c := new Collection(source, order, packed, ids, hash);
    hide Collection.Valid;
    var first := c.TrashVerified(_ => Go, Checks(true, true, true), LeftInPlace, 1);
    var second := c.Restore(CutShort(|order|));
    assert forall key :: key in order ==> key in c.source;
    reported := c.CleanAfterRestore(_ => Go, 1);
  }

  /**
   * A finished cleanup, the quarantine put back from the Trash, a restore that ends before the
   * marker is cleared, and another cleanup: it reports that all is in the Trash, and all is at home.
   */
  method CompletedMisreport(source: Files, order: seq<AudioKey>, packed: Files, ids: seq<Text>, hash: Text -> Text)
    returns (c: Collection, reported: Outcome)
    requires Collectible(source, order, packed, ids, hash) && order != []
    ensures fresh(c) && c.Valid() && reported == Finished
    ensures c.marker.Some? && c.marker.value.status == Completed
    ensures c.source == source && c.stage.None? && c.trash.None?
  {
    c := new Collection(source, order, packed, ids, hash);
    hide Collection.Valid;
    var first := c.TrashVerified(_ => Go, Checks(true, true, true), Moved, 1);
    c.PutBack();
    var second := c.Restore(CutShort(|order|));
    assert forall key :: key in order ==> key in c.source;
    reported := c.CleanAfterRestore(_ => Go, 1);
  }

  /** What a collection is made from, with every planned file as the pack has it. */
  ghost predicate Collectible(source: Files, order: seq<AudioKey>, packed: Files, ids: seq<Text>, hash: Text -> Text) {
    && (forall text :: |hash(text)| == 8)
    && (forall i, j :: 0 <= i < j < |order| ==> order[i] != order[j])
    && (forall key :: key in order ==>
          key.source in ids && key in packed && key in source && source[key] == packed[key])
  }
}
