/**
 * Every way a pack build can go: runs that are cancelled, crash and resume, over one database and
 * unchanged source files, until one of them publishes.
 */
module BuildRuns {
  import opened Wrappers
  import opened Text
  import opened Sorting
  import opened Groups
  import opened PackBuilder
  import opened Resume

  /** The staging directory; a part is missing before it is created and after an interrupted removal. */
  datatype Disk = Disk(index: Option<seq<Record>>, pack: Option<seq<byte>>, checkpoint: Option<Checkpoint>)

  /**
   * `saved` is the checkpoint on disk and `expected` the final version read from a checkpoint.
   * While a run is on, the files are the builder's own; a crash decides what of them survives.
   */
  datatype System =
    | Idle(disk: Disk)
    | Running(b: Building, saved: Option<Checkpoint>, expected: Option<seq<byte>>)
    | Done(b: Building)

  /** Sixteen hexadecimal digits of the version hash. */
  function Version(b: Building, env: Setting): seq<byte> {
    var hash := env.sha(b.version);
    if |hash| > 8 then hash[..8] else hash
  }

  /** `_load_build_checkpoint`. */
  predicate Loadable(disk: Disk, size: nat) {
    && disk.index.Some? && disk.pack.Some? && disk.checkpoint.Some?
    && |disk.index.value| == size
    && disk.checkpoint.value.packBytes >= PACK_HEADER_SIZE
    && |disk.pack.value| >= disk.checkpoint.value.packBytes
    && disk.pack.value[..PACK_HEADER_SIZE] == PackHeader()
  }

  /** The pack file after the resume branch has truncated it. */
  function Truncated(disk: Disk, size: nat): seq<byte>
    requires Loadable(disk, size)
  {
    disk.pack.value[..disk.checkpoint.value.packBytes]
  }

  /** The opening of a run: resume, or start clean when there is nothing sound to resume. */
  function Opened(disk: Disk, rows: seq<Entry>, size: nat, env: Setting): System {
    if !Loadable(disk, size) then Running(Start(size, env), None, None)
    else
      match Restored(rows, disk.index.value, Truncated(disk, size), disk.checkpoint.value, env)
      case Err(_) => Running(Start(size, env), None, None)
      case Ok(b) => Running(b, disk.checkpoint, disk.checkpoint.value.finalVersion)
  }

  function Remaining(b: Building, rows: seq<Entry>): seq<Group> {
    GroupsOf(Keep(rows, Within(b.lastKey, None)))
  }

  /** Row ids whose records were synced before the checkpoint and are not written again. */
  ghost predicate Protected(id: nat, rows: seq<Entry>, lastKey: Option<AudioKey>) {
    forall k :: 0 <= k < |rows| && rows[k].id == id ==>
      lastKey.Some? && !KeyBefore(lastKey.value, rows[k].key)
  }

  /** After a crash: the checkpoint and what it covers survive, everything later may be anything. */
  ghost predicate CrashLeaves(b: Building, saved: Option<Checkpoint>, disk: Disk, rows: seq<Entry>) {
    && disk.checkpoint == saved
    && (saved.Some? && disk.index.Some? ==>
          && |disk.index.value| == |b.index|
          && (forall id :: 0 <= id < |b.index| && Protected(id, rows, saved.value.lastKey) ==>
                disk.index.value[id] == b.index[id]))
    && (saved.Some? && disk.pack.Some? && saved.value.packBytes <= |b.pack| ==>
          b.pack[..saved.value.packBytes] <= disk.pack.value)
  }

  ghost predicate Dropped<T>(before: Option<T>, after: Option<T>) {
    after == before || after == None
  }

  /** What can happen to a directory no run has open. */
  ghost predicate IdleStep(disk: Disk, t: System, rows: seq<Entry>, size: nat, env: Setting) {
    // A run opens the directory,
    || t == Opened(disk, rows, size, env)
    // or is cancelled while restoring, with the pack already truncated,
    || (Loadable(disk, size) && t == Idle(Disk(disk.index, Some(Truncated(disk, size)), disk.checkpoint)))
    // or is interrupted while removing it,
    || (t.Idle? && Dropped(disk.index, t.disk.index) && Dropped(disk.pack, t.disk.pack)
        && Dropped(disk.checkpoint, t.disk.checkpoint))
    // or crashes while creating it anew, before the first checkpoint.
    || (t.Idle? && t.disk.checkpoint == None)
  }

  ghost predicate RunningStep(
    b: Building, saved: Option<Checkpoint>, expected: Option<seq<byte>>, t: System,
    rows: seq<Entry>, size: nat, env: Setting)
  {
    // The next group is consumed,
    || (Remaining(b, rows) != []
        && t == Running(Consumed(b, ReadGroup(Remaining(b, rows)[0], env)), saved, expected))
    // a checkpoint is written,
    || t == Running(b, Some(CheckpointOf(b, env, None)), expected)
    // the user cancels, which writes one too,
    || t == Idle(Disk(Some(b.index), Some(b.pack), Some(CheckpointOf(b, env, expected))))
    // the process crashes,
    || (t.Idle? && CrashLeaves(b, saved, t.disk, rows))
    // all groups are done but the final version contradicts the checkpoint: the run fails,
    || (Remaining(b, rows) == [] && expected.Some? && expected.value != Version(b, env)
        && t == Idle(Disk(Some(b.index), Some(b.pack), saved)))
    // or the version is written to it,
    || (Remaining(b, rows) == [] && (expected.None? || expected.value == Version(b, env))
        && t == Running(b, Some(CheckpointOf(b, env, Some(Version(b, env)))), Some(Version(b, env))))
    // and the pack is published.
    || (Remaining(b, rows) == [] && saved == Some(CheckpointOf(b, env, Some(Version(b, env)))) && t == Done(b))
  }

  ghost predicate Step(s: System, t: System, rows: seq<Entry>, size: nat, env: Setting) {
    match s
    case Idle(disk) => IdleStep(disk, t, rows, size, env)
    case Running(b, saved, expected) => RunningStep(b, saved, expected, t, rows, size, env)
    case Done(_) => false
  }

  /* ---- The invariant. ---- */

  /** A checkpoint is a snapshot of the fold of some prefix; only the full fold has a version. */
  ghost predicate Snapshot(c: Checkpoint, groups: seq<Group>, j: nat, size: nat, env: Setting)
    requires j <= |groups|
  {
    var b := Fold(size, groups[..j], env);
    && c == CheckpointOf(b, env, c.finalVersion)
    && (c.finalVersion.Some? ==> j == |groups| && c.finalVersion.value == Version(b, env))
  }

  ghost predicate DiskSound(disk: Disk, groups: seq<Group>, size: nat, env: Setting) {
    disk.checkpoint.Some? ==> exists j :: 0 <= j <= |groups| && DiskSoundAt(disk, groups, j, size, env)
  }

  ghost predicate DiskSoundAt(disk: Disk, groups: seq<Group>, j: nat, size: nat, env: Setting)
    requires j <= |groups| && disk.checkpoint.Some?
  {
    && Snapshot(disk.checkpoint.value, groups, j, size, env)
    && (disk.pack.Some? ==> Fold(size, groups[..j], env).pack <= disk.pack.value)
    && (disk.index.Some? ==> Agrees(disk.index.value, groups, j, size, env))
  }

  /** The builder holds the fold of the first `k` groups, apart from stale records after them. */
  ghost predicate BuilderAt(b: Building, groups: seq<Group>, k: nat, size: nat, env: Setting)
    requires k <= |groups|
  {
    && b == Fold(size, groups[..k], env).(index := b.index)
    && Agrees(b.index, groups, k, size, env)
  }

  ghost predicate RunningSound(s: System, groups: seq<Group>, k: nat, size: nat, env: Setting)
    requires s.Running? && k <= |groups|
  {
    && BuilderAt(s.b, groups, k, size, env)
    && (s.saved.Some? ==> exists j :: 0 <= j <= k && Snapshot(s.saved.value, groups, j, size, env))
    && (s.expected.Some? ==> k == |groups| && s.expected.value == Version(s.b, env))
  }

  ghost predicate SomewhereSound(s: System, groups: seq<Group>, size: nat, env: Setting)
    requires s.Running?
  {
    exists k :: 0 <= k <= |groups| && RunningSound(s, groups, k, size, env)
  }

  ghost predicate Sound(s: System, rows: seq<Entry>, size: nat, env: Setting) {
    match s
    case Idle(disk) => DiskSound(disk, GroupsOf(rows), size, env)
    case Running(_, _, _) => SomewhereSound(s, GroupsOf(rows), size, env)
    case Done(b) => b == Fold(size, GroupsOf(rows), env)
  }

  lemma AgreesAtEnd(index: seq<Record>, groups: seq<Group>, size: nat, env: Setting)
    requires Agrees(index, groups, |groups|, size, env)
    ensures index == Fold(size, groups, env).index
  {
    assert groups[..|groups|] == groups;
  }

  /** Groups that do not mention a row leave its record alone. */
  lemma {:induction false} RecordUntouched(size: nat, groups: seq<Group>, j: nat, k: nat, id: nat, env: Setting)
    requires j <= k <= |groups| && id < size
    requires forall i :: j <= i < k ==> id !in groups[i].ids
    ensures Fold(size, groups[..k], env).index[id] == Fold(size, groups[..j], env).index[id]
    decreases k
  {
    hide Consumed, ReadGroup, FoldFrom;
    if j < k {
      FoldStep(size, groups, k - 1, env);
      ConsumedRecords(Fold(size, groups[..k - 1], env), ReadGroup(groups[k - 1], env), id);
      RecordUntouched(size, groups, j, k - 1, id, env);
    }
  }

  lemma RemainingGroups(b: Building, rows: seq<Entry>, k: nat, size: nat, env: Setting)
    requires GoodTable(rows, size) && k <= |GroupsOf(rows)|
    requires BuilderAt(b, GroupsOf(rows), k, size, env)
    ensures Remaining(b, rows) == GroupsOf(rows)[k..]
  {
    hide Agrees;
    FoldLastKey(size, GroupsOf(rows), k, env);
    hide Fold, Keep, GroupsOf;
    if k > 0 {
      GroupsSplit(rows, k);
    } else {
      KeepAll(rows, Within(None, None));
    }
  }

  lemma ConsumeSound(b: Building, groups: seq<Group>, k: nat, size: nat, env: Setting)
    requires k < |groups| && BuilderAt(b, groups, k, size, env)
    ensures BuilderAt(Consumed(b, ReadGroup(groups[k], env)), groups, k + 1, size, env)
  {
    hide FindCopy, FoldFrom, ReadGroup;
    FoldStep(size, groups, k, env);
    var front, result := Fold(size, groups[..k], env), ReadGroup(groups[k], env);
    var after := Consumed(b, result);
    forall id | 0 <= id < size && (forall j :: k + 1 <= j < |groups| ==> id !in groups[j].ids)
      ensures after.index[id] == Consumed(front, result).index[id]
    {
      ConsumedRecords(b, result, id);
      ConsumedRecords(front, result, id);
    }
  }

  /** Rows of no later group are protected by the checkpoint of the earlier ones. */
  lemma EarlierProtected(rows: seq<Entry>, j: nat, size: nat, id: nat, env: Setting)
    requires GoodTable(rows, size) && j <= |GroupsOf(rows)|
    requires forall i :: j <= i < |GroupsOf(rows)| ==> id !in GroupsOf(rows)[i].ids
    ensures Protected(id, rows, Fold(size, GroupsOf(rows)[..j], env).lastKey)
  {
    var groups := GroupsOf(rows);
    FoldLastKey(size, groups, j, env);
    GroupsGood(rows);
    hide Fold, GroupsOf, KeyBefore;
    forall k | 0 <= k < |rows| && rows[k].id == id
      ensures j > 0 && !KeyBefore(groups[j - 1].key, rows[k].key)
    {
      assert InGroup(groups, rows[k]);
      var i :| 0 <= i < |groups| && groups[i].key == rows[k].key && rows[k].id in groups[i].ids;
      KeyBeforeAsymmetric(groups[i].key, groups[j - 1].key);
      KeyBeforeIrreflexive(groups[i].key);
    }
  }

  lemma CrashSound(
    b: Building, saved: Option<Checkpoint>, disk: Disk, rows: seq<Entry>, k: nat, size: nat, env: Setting)
    requires GoodTable(rows, size) && k <= |GroupsOf(rows)|
    requires BuilderAt(b, GroupsOf(rows), k, size, env) && CrashLeaves(b, saved, disk, rows)
    requires saved.Some? ==> exists j :: 0 <= j <= k && Snapshot(saved.value, GroupsOf(rows), j, size, env)
    ensures DiskSound(disk, GroupsOf(rows), size, env)
  {
    hide GroupsOf, Fold, GoodTable, Protected, Version;
    var groups := GroupsOf(rows);
    if saved.Some? {
      var j :| 0 <= j <= k && Snapshot(saved.value, groups, j, size, env);
      var early := Fold(size, groups[..j], env);
      PackGrows(size, groups, j, k, env);
      assert b.pack[..saved.value.packBytes] == early.pack;
      if disk.index.Some? {
        forall id | 0 <= id < size && (forall i :: j <= i < |groups| ==> id !in groups[i].ids)
          ensures disk.index.value[id] == early.index[id]
        {
          EarlierProtected(rows, j, size, id, env);
          RecordUntouched(size, groups, j, k, id, env);
        }
      }
      assert DiskSoundAt(disk, groups, j, size, env);
    }
  }

  /** Opening a sound directory: either exactly where the checkpoint was, or from the start. */
  lemma OpenedSound(disk: Disk, rows: seq<Entry>, size: nat, env: Setting)
    requires GoodTable(rows, size) && GoodSetting(env)
    requires DiskSound(disk, GroupsOf(rows), size, env)
    ensures Sound(Opened(disk, rows, size, env), rows, size, env)
  {
    hide GroupsOf, GoodTable, GoodSetting, Restored, Agrees;
    var groups := GroupsOf(rows);
    var s := Opened(disk, rows, size, env);
    StartSound(groups, size, env);
    if Loadable(disk, size) {
      var j :| 0 <= j <= |groups| && DiskSoundAt(disk, groups, j, size, env);
      hide Fold;
      var early := Fold(size, groups[..j], env);
      assert Truncated(disk, size) == early.pack;
      if j > 0 || groups == [] {
        RestoreExact(rows, disk.index.value, size, j, env, disk.checkpoint.value.finalVersion);
        assert RunningSound(s, groups, j, size, env);
      } else {
        FoldLastKey(size, groups, j, env);
        LastGroupKey(rows);
        NullBoundaryRefused(rows, disk.index.value, Truncated(disk, size), disk.checkpoint.value, env);
        assert RunningSound(s, groups, 0, size, env);
      }
    } else {
      assert RunningSound(s, groups, 0, size, env);
    }
  }

  /** Every pack begins with the header. */
  lemma PackBegins(size: nat, groups: seq<Group>, j: nat, env: Setting)
    requires j <= |groups|
    ensures PackHeader() <= Fold(size, groups[..j], env).pack
  {
    hide PackHeader;
    PackGrows(size, groups, 0, j, env);
    assert groups[..0] == [];
  }

  lemma SoundLoadable(disk: Disk, groups: seq<Group>, j: nat, size: nat, env: Setting)
    requires disk.index.Some? && disk.pack.Some? && disk.checkpoint.Some?
    requires j <= |groups| && DiskSoundAt(disk, groups, j, size, env)
    ensures Loadable(disk, size) && Truncated(disk, size) == Fold(size, groups[..j], env).pack
  {
    hide Fold, PackHeader, Version;
    PackBegins(size, groups, j, env);
    assert disk.pack.value[..PACK_HEADER_SIZE] == Fold(size, groups[..j], env).pack[..PACK_HEADER_SIZE];
  }

  /**
   * Nothing that a checkpoint covers is done again: a run that finds the files of a build goes on
   * with the very state it had at its checkpoint, unless not a single group had been finished.
   */
  lemma CheckpointResumed(disk: Disk, rows: seq<Entry>, j: nat, size: nat, env: Setting)
    requires GoodTable(rows, size) && GoodSetting(env) && j <= |GroupsOf(rows)|
    requires disk.index.Some? && disk.pack.Some? && disk.checkpoint.Some?
    requires DiskSoundAt(disk, GroupsOf(rows), j, size, env) && (j > 0 || GroupsOf(rows) == [])
    ensures var b := Fold(size, GroupsOf(rows)[..j], env);
            Opened(disk, rows, size, env)
            == Running(b.(index := disk.index.value), disk.checkpoint, disk.checkpoint.value.finalVersion)
  {
    hide GroupsOf, GoodTable, GoodSetting, Restored, Agrees, Fold, Version, Loadable;
    var groups, checkpoint := GroupsOf(rows), disk.checkpoint.value;
    SoundLoadable(disk, groups, j, size, env);
    RestoreExact(rows, disk.index.value, size, j, env, checkpoint.finalVersion);
  }

  lemma StartSound(groups: seq<Group>, size: nat, env: Setting)
    ensures RunningSound(Running(Start(size, env), None, None), groups, 0, size, env)
  {
  }

  lemma IdleStepSound(disk: Disk, t: System, rows: seq<Entry>, size: nat, env: Setting)
    requires GoodTable(rows, size) && GoodSetting(env)
    requires DiskSound(disk, GroupsOf(rows), size, env) && Step(Idle(disk), t, rows, size, env)
    ensures Sound(t, rows, size, env)
  {
    hide GroupsOf, Opened, Agrees, Fold, Version;
    var groups := GroupsOf(rows);
    if t == Opened(disk, rows, size, env) {
      OpenedSound(disk, rows, size, env);
    } else if t.Idle? && t.disk.checkpoint.Some? {
      var j :| 0 <= j <= |groups| && DiskSoundAt(disk, groups, j, size, env);
      assert DiskSoundAt(t.disk, groups, j, size, env);
    }
  }

  lemma RunningStepSound(s: System, t: System, rows: seq<Entry>, size: nat, env: Setting, k: nat)
    requires GoodTable(rows, size) && GoodSetting(env)
    requires s.Running? && k <= |GroupsOf(rows)| && RunningSound(s, GroupsOf(rows), k, size, env)
    requires Step(s, t, rows, size, env)
    ensures Sound(t, rows, size, env)
  {
    hide GroupsOf, Agrees, Fold, Version, Consumed, ReadGroup, CrashLeaves, Remaining;
    var groups, b := GroupsOf(rows), s.b;
    RemainingGroups(b, rows, k, size, env);
    if t.Running? && t.b == b {
      SnapshotNow(b, groups, k, size, env, None);
      if k == |groups| { SnapshotNow(b, groups, k, size, env, Some(Version(b, env))); }
      assert RunningSound(t, groups, k, size, env);
    } else if t.Running? {
      ConsumeSound(b, groups, k, size, env);
      assert RunningSound(t, groups, k + 1, size, env);
    } else if t.Done? {
      AgreesAtEnd(b.index, groups, size, env);
      assert groups[..k] == groups;
    } else if CrashLeaves(b, s.saved, t.disk, rows) {
      CrashSound(b, s.saved, t.disk, rows, k, size, env);
    } else {
      SnapshotNow(b, groups, k, size, env, s.expected);
      assert DiskSoundAt(t.disk, groups, k, size, env);
    }
  }

  lemma SnapshotNow(b: Building, groups: seq<Group>, k: nat, size: nat, env: Setting, finalVersion: Option<seq<byte>>)
    requires k <= |groups| && BuilderAt(b, groups, k, size, env)
    requires finalVersion.Some? ==> k == |groups| && finalVersion.value == Version(b, env)
    ensures Snapshot(CheckpointOf(b, env, finalVersion), groups, k, size, env)
  {
  }

  lemma StepSound(s: System, t: System, rows: seq<Entry>, size: nat, env: Setting)
    requires GoodTable(rows, size) && GoodSetting(env)
    requires Sound(s, rows, size, env) && Step(s, t, rows, size, env)
    ensures Sound(t, rows, size, env)
  {
    match s
    case Idle(disk) => IdleStepSound(disk, t, rows, size, env);
    case Running(_, _, _) =>
      var k :| 0 <= k <= |GroupsOf(rows)| && RunningSound(s, GroupsOf(rows), k, size, env);
      RunningStepSound(s, t, rows, size, env, k);
    case Done(_) =>
  }

  /* ---- Whole runs. ---- */

  const NOTHING := Disk(None, None, None)

  ghost predicate IsRun(run: seq<System>, rows: seq<Entry>, size: nat, env: Setting) {
    && run != [] && run[0].Idle?
    && (forall i :: 0 <= i < |run| - 1 ==> Step(run[i], run[i + 1], rows, size, env))
  }

  lemma {:induction false} RunSound(run: seq<System>, rows: seq<Entry>, size: nat, env: Setting, i: nat)
    requires GoodTable(rows, size) && GoodSetting(env)
    requires IsRun(run, rows, size, env) && DiskSound(run[0].disk, GroupsOf(rows), size, env)
    requires i < |run|
    ensures Sound(run[i], rows, size, env)
  {
    hide Step, GoodTable, DiskSound, GroupsOf;
    if i > 0 {
      RunSound(run, rows, size, env, i - 1);
      StepSound(run[i - 1], run[i], rows, size, env);
    }
  }

  /**
   * Interrupted equals uninterrupted: however often runs are cancelled, crash and resume, what is
   * finally published is the index, pack, counters and version input of one straight run.
   */
  lemma InterruptedEqualsStraight(run: seq<System>, rows: seq<Entry>, size: nat, env: Setting, i: nat)
    requires GoodTable(rows, size) && GoodSetting(env)
    requires IsRun(run, rows, size, env) && run[0] == Idle(NOTHING)
    requires i < |run| && run[i].Done?
    ensures run[i].b == Fold(size, GroupsOf(rows), env)
  {
    hide Step, GoodTable;
    RunSound(run, rows, size, env, i);
  }

  /** The check of the final version never fails, on any run. */
  lemma FinalVersionNeverContradicts(run: seq<System>, rows: seq<Entry>, size: nat, env: Setting, i: nat)
    requires GoodTable(rows, size) && GoodSetting(env)
    requires IsRun(run, rows, size, env) && run[0] == Idle(NOTHING)
    requires i < |run| && run[i].Running? && run[i].expected.Some?
    ensures run[i].expected.value == Version(run[i].b, env) && Remaining(run[i].b, rows) == []
  {
    hide Step, GoodTable, GroupsOf, Remaining, Version, BuilderAt;
    RunSound(run, rows, size, env, i);
    var k :| 0 <= k <= |GroupsOf(rows)| && RunningSound(run[i], GroupsOf(rows), k, size, env);
    RemainingGroups(run[i].b, rows, k, size, env);
  }

  /** The steps of an uninterrupted run from where a builder stands. */
  function Straight(
    b: Building, saved: Option<Checkpoint>, expected: Option<seq<byte>>, groups: seq<Group>, env: Setting): seq<System>
    decreases |groups|
  {
    if groups != [] then
      [Running(b, saved, expected)]
      + Straight(Consumed(b, ReadGroup(groups[0], env)), saved, expected, groups[1..], env)
    else
      [Running(b, saved, expected),
       Running(b, Some(CheckpointOf(b, env, Some(Version(b, env)))), Some(Version(b, env))),
       Done(b)]
  }

  lemma {:induction false} StraightRuns(
    b: Building, saved: Option<Checkpoint>, expected: Option<seq<byte>>, rows: seq<Entry>, k: nat, size: nat,
    env: Setting)
    requires GoodTable(rows, size) && GoodSetting(env) && k <= |GroupsOf(rows)|
    requires RunningSound(Running(b, saved, expected), GroupsOf(rows), k, size, env)
    ensures var path := Straight(b, saved, expected, GroupsOf(rows)[k..], env);
            && path != [] && path[0] == Running(b, saved, expected)
            && (forall i :: 0 <= i < |path| - 1 ==> Step(path[i], path[i + 1], rows, size, env))
            && path[|path| - 1] == Done(Fold(size, GroupsOf(rows), env))
    decreases |GroupsOf(rows)| - k
  {
    hide GroupsOf, Consumed, ReadGroup, Version, Fold, GoodTable, Remaining, Agrees;
    var groups := GroupsOf(rows);
    RemainingGroups(b, rows, k, size, env);
    var path := Straight(b, saved, expected, groups[k..], env);
    if k == |groups| {
      AgreesAtEnd(b.index, groups, size, env);
      assert groups[..k] == groups;
    } else {
      var after := Consumed(b, ReadGroup(groups[k], env));
      assert groups[k..][1..] == groups[k + 1..];
      ConsumeSound(b, groups, k, size, env);
      StraightRuns(after, saved, expected, rows, k + 1, size, env);
      var rest := Straight(after, saved, expected, groups[k + 1..], env);
      assert path == [Running(b, saved, expected)] + rest;
      forall i | 0 <= i < |path| - 1 ensures Step(path[i], path[i + 1], rows, size, env) {
        if i > 0 {
          assert path[i] == rest[i - 1] && path[i + 1] == rest[i];
        }
      }
    }
  }

  /** From every directory a run can leave behind, one undisturbed run publishes. */
  lemma ResumeCompletes(disk: Disk, rows: seq<Entry>, size: nat, env: Setting) returns (run: seq<System>)
    requires GoodTable(rows, size) && GoodSetting(env)
    requires DiskSound(disk, GroupsOf(rows), size, env)
    ensures IsRun(run, rows, size, env) && run[0] == Idle(disk)
    ensures run[|run| - 1] == Done(Fold(size, GroupsOf(rows), env))
  {
    hide GroupsOf, GoodTable, Fold, RunningSound, DiskSound, Opened, RunningStep, Loadable;
    OpenedSound(disk, rows, size, env);
    var s := Opened(disk, rows, size, env);
    OpenedRuns(disk, rows, size, env);
    var k :| 0 <= k <= |GroupsOf(rows)| && RunningSound(s, GroupsOf(rows), k, size, env);
    StraightRuns(s.b, s.saved, s.expected, rows, k, size, env);
    var path := Straight(s.b, s.saved, s.expected, GroupsOf(rows)[k..], env);
    run := [Idle(disk)] + path;
    forall i | 0 <= i < |run| - 1 ensures Step(run[i], run[i + 1], rows, size, env) {
      if i > 0 {
        assert run[i] == path[i - 1] && run[i + 1] == path[i];
      }
    }
  }

  lemma OpenedRuns(disk: Disk, rows: seq<Entry>, size: nat, env: Setting)
    ensures Opened(disk, rows, size, env).Running?
  {
  }
}
