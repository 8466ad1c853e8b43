/** `write_pack`: every asset's bytes, once per distinct content, in one pack file. */
module AudioPacker {
  import opened Wrappers
  import opened Text
  import opened LittleEndian

  const CHUNK := 1024

  /** File contents by absolute path; `None` cannot be read. Nothing else writes them meanwhile. */
  type Files = Text -> Option<seq<byte>>

  /** BLAKE3, which may collide. */
  type Digest = seq<byte> -> seq<byte>

  datatype Blob = Blob(offset: nat, length: nat, path: Text)

  datatype Range = Range(offset: nat, length: nat, prefix: nat)

  datatype Packing = Packing(
    pack: seq<byte>, blobs: map<seq<byte>, Blob>, ranges: seq<Range>,
    sourceBytes: nat, deduplicatedBytes: nat, blobCount: nat)

  const START := Packing([], map[], [], 0, 0, 0)

  function Prefix(digest: seq<byte>): nat {
    if |digest| < 8 then 0 else Decode(digest[..8])
  }

  function Reuse(s: Packing, data: seq<byte>, key: seq<byte>): Packing
    requires key in s.blobs
  {
    s.(ranges := s.ranges + [Range(s.blobs[key].offset, |data|, Prefix(key))],
       sourceBytes := s.sourceBytes + |data|,
       deduplicatedBytes := s.deduplicatedBytes + |data|)
  }

  function Append(s: Packing, path: Text, data: seq<byte>, key: seq<byte>): Packing {
    Packing(
      s.pack + data,
      if key in s.blobs then s.blobs else s.blobs[key := Blob(|s.pack|, |data|, path)],
      s.ranges + [Range(|s.pack|, |data|, Prefix(key))],
      s.sourceBytes + |data|, s.deduplicatedBytes, s.blobCount + 1)
  }

  /** One asset of the sequential reference: reuse an identical blob, or append. */
  function PackOne(s: Packing, path: Text, files: Files, digest: Digest, dedup: bool): Result<Packing> {
    match files(path)
    case None => Err("cannot read asset")
    case Some(data) =>
      var key := digest(data);
      var candidate := dedup && key in s.blobs && s.blobs[key].length == |data|;
      if s.sourceBytes + |data| >= U64_LIMIT then Err("source audio byte count overflow")
      else if candidate && files(s.blobs[key].path).None? then Err("cannot re-read dedup representative")
      else if candidate && files(s.blobs[key].path).value == data then Ok(Reuse(s, data, key))
      else if |s.pack| + |data| >= U64_LIMIT then Err("audio pack exceeds u64")
      else Ok(Append(s, path, data, key))
  }

  /** All assets one after the other, without chunks. */
  function PackAll(paths: seq<Text>, files: Files, digest: Digest, dedup: bool): Result<Packing> {
    if paths == [] then Ok(START)
    else
      var s :- PackAll(paths[..|paths| - 1], files, digest, dedup);
      PackOne(s, paths[|paths| - 1], files, digest, dedup)
  }

  lemma PackAllAppend(paths: seq<Text>, path: Text, files: Files, digest: Digest, dedup: bool)
    ensures PackAll(paths + [path], files, digest, dedup)
         == var front := PackAll(paths, files, digest, dedup);
            if front.Err? then front else PackOne(front.value, path, files, digest, dedup)
  {
    assert (paths + [path])[..|paths|] == paths;
  }

  /** The first failure is the failure of the whole. */
  lemma {:induction false} FailureStays(paths: seq<Text>, more: seq<Text>, files: Files, digest: Digest, dedup: bool)
    requires PackAll(paths, files, digest, dedup).Err?
    ensures PackAll(paths + more, files, digest, dedup) == PackAll(paths, files, digest, dedup)
  {
    if more == [] {
      assert paths + more == paths;
    } else {
      var front, last := more[..|more| - 1], more[|more| - 1];
      FailureStays(paths, front, files, digest, dedup);
      assert paths + more == (paths + front) + [last];
      PackAllAppend(paths + front, last, files, digest, dedup);
    }
  }

  /** The body of the packing loop, updating the running state field by field. */
  method PackAsset(
    s: Packing, path: Text, loaded: Option<seq<byte>>, files: Files, digest: Digest, dedup: bool)
    returns (r: Result<Packing>)
    requires loaded == files(path)
    ensures r == PackOne(s, path, files, digest, dedup)
  {
    if loaded.None? {
      return Err("cannot read asset");
    }
    var data := loaded.value;
    var key := digest(data);
    var after := s;
    if s.sourceBytes + |data| >= U64_LIMIT {
      return Err("source audio byte count overflow");
    }
    after := after.(sourceBytes := s.sourceBytes + |data|);
    if dedup {
      if key in s.blobs {
        var existing := s.blobs[key];
        if existing.length == |data| {
          var representative := files(existing.path);
          if representative.None? {
            return Err("cannot re-read dedup representative");
          }
          if representative.value == data {
            return Ok(after.(ranges := after.ranges + [Range(existing.offset, |data|, Prefix(key))],
                             deduplicatedBytes := after.deduplicatedBytes + |data|));
          }
        }
      }
    }
    var offset := |s.pack|;
    after := after.(ranges := after.ranges + [Range(offset, |data|, Prefix(key))], pack := after.pack + data);
    if key !in after.blobs {
      after := after.(blobs := after.blobs[key := Blob(offset, |data|, path)]);
    }
    if offset + |data| >= U64_LIMIT {
      return Err("audio pack exceeds u64");
    }
    r := Ok(after.(blobCount := after.blobCount + 1));
  }

  /** Reading a chunk ahead of packing it. */
  method LoadChunk(paths: seq<Text>, files: Files) returns (loaded: seq<Option<seq<byte>>>)
    ensures |loaded| == |paths| && forall i :: 0 <= i < |paths| ==> loaded[i] == files(paths[i])
  {
    loaded := [];
    for i := 0 to |paths|
      invariant |loaded| == i && forall j :: 0 <= j < i ==> loaded[j] == files(paths[j])
    {
      loaded := loaded + [files(paths[i])];
    }
  }

  function ChunkEnd(start: nat, total: nat): (end: nat)
    requires start < total
    ensures start < end <= total
  {
    if start + CHUNK < total then start + CHUNK else total
  }

  lemma PackNothing(files: Files, digest: Digest, dedup: bool)
    ensures PackAll([], files, digest, dedup) == Ok(START)
  {
  }

  /** `write_pack`: working in chunks gives the result, or the error, of working asset by asset. */
  method WritePack(paths: seq<Text>, files: Files, digest: Digest, dedup: bool, workers: nat)
    returns (r: Result<Packing>)
    ensures r == if 0 < workers <= 64 then PackAll(paths, files, digest, dedup)
                 else Err("pack workers must be between 1 and 64")
  {
    hide *;
    PackNothing(files, digest, dedup);
    if !(0 < workers <= 64) {
      return Err("pack workers must be between 1 and 64");
    }
    var s := START;
    var start := 0;
    assert paths[..0] == [];
    while start < |paths|
      invariant 0 <= start <= |paths|
      invariant PackAll(paths[..start], files, digest, dedup) == Ok(s)
    {
      var end := ChunkEnd(start, |paths|);
      var chunk := paths[start..end];
      var loaded := LoadChunk(chunk, files);
      for i := 0 to |chunk|
        invariant PackAll(paths[..start + i], files, digest, dedup) == Ok(s)
      {
        PackAllAppend(paths[..start + i], chunk[i], files, digest, dedup);
        assert paths[..start + i + 1] == paths[..start + i] + [chunk[i]];
        var next := PackAsset(s, chunk[i], loaded[i], files, digest, dedup);
        if next.Err? {
          assert paths == paths[..start + i + 1] + paths[start + i + 1..];
          FailureStays(paths[..start + i + 1], paths[start + i + 1..], files, digest, dedup);
          return Err(next.message);
        }
        s := next.value;
      }
      start := end;
    }
    assert paths[..start] == paths;
    r := Ok(s);
  }

  /* ---- What a finished pack is. ---- */

  predicate Apart(a: Range, b: Range) {
    a.offset + a.length <= b.offset || b.offset + b.length <= a.offset
  }

  predicate SameRange(a: Range, b: Range) {
    a.offset == b.offset && a.length == b.length
  }

  function Sum(ranges: seq<Range>): nat {
    if ranges == [] then 0 else Sum(ranges[..|ranges| - 1]) + ranges[|ranges| - 1].length
  }

  /** The asset's slice of the pack is its file. */
  ghost predicate Serves(s: Packing, range: Range, path: Text, files: Files, digest: Digest) {
    && range.offset + range.length <= |s.pack|
    && files(path) == Some(s.pack[range.offset..range.offset + range.length])
    && range.prefix == Prefix(digest(s.pack[range.offset..range.offset + range.length]))
  }

  /** The dedup table points at packed copies of its representatives. */
  ghost predicate Represented(s: Packing, key: seq<byte>, blob: Blob, files: Files, digest: Digest) {
    && blob.offset + blob.length <= |s.pack|
    && files(blob.path) == Some(s.pack[blob.offset..blob.offset + blob.length])
    && key == digest(s.pack[blob.offset..blob.offset + blob.length])
    && exists i :: 0 <= i < |s.ranges| && s.ranges[i].offset == blob.offset && s.ranges[i].length == blob.length
  }

  ghost predicate Packed(s: Packing, paths: seq<Text>, files: Files, digest: Digest) {
    && |s.ranges| == |paths|
    && (forall i :: 0 <= i < |paths| ==> Serves(s, s.ranges[i], paths[i], files, digest))
    && (forall i, j :: 0 <= i < j < |paths| ==>
          Apart(s.ranges[i], s.ranges[j]) || SameRange(s.ranges[i], s.ranges[j]))
    && (forall key :: key in s.blobs ==> Represented(s, key, s.blobs[key], files, digest))
    && s.sourceBytes == Sum(s.ranges) == |s.pack| + s.deduplicatedBytes
    && |s.pack| < U64_LIMIT
  }

  lemma ServesLonger(s: Packing, after: Packing, range: Range, path: Text, files: Files, digest: Digest)
    requires Serves(s, range, path, files, digest) && s.pack <= after.pack
    ensures Serves(after, range, path, files, digest)
  {
    assert after.pack[range.offset..range.offset + range.length] == s.pack[range.offset..range.offset + range.length];
  }

  lemma RepresentedLonger(s: Packing, after: Packing, key: seq<byte>, blob: Blob, files: Files, digest: Digest)
    requires Represented(s, key, blob, files, digest) && s.pack <= after.pack && s.ranges <= after.ranges
    ensures Represented(after, key, blob, files, digest)
  {
    assert after.pack[blob.offset..blob.offset + blob.length] == s.pack[blob.offset..blob.offset + blob.length];
    var i :| 0 <= i < |s.ranges| && s.ranges[i].offset == blob.offset && s.ranges[i].length == blob.length;
    assert after.ranges[i] == s.ranges[i];
  }

  lemma ReuseKeeps(s: Packing, paths: seq<Text>, path: Text, data: seq<byte>, files: Files, digest: Digest)
    requires Packed(s, paths, files, digest) && files(path) == Some(data)
    requires digest(data) in s.blobs && s.blobs[digest(data)].length == |data|
    requires files(s.blobs[digest(data)].path) == Some(data)
    ensures Packed(Reuse(s, data, digest(data)), paths + [path], files, digest)
  {
    hide Serves, Represented;
    var after := Reuse(s, data, digest(data));
    var range := after.ranges[|paths|];
    assert after.ranges[..|paths|] == s.ranges;
    var k := ReuseRange(s, after, path, data, files, digest);
    forall i | 0 <= i < |paths|
      ensures Serves(after, after.ranges[i], paths[i], files, digest)
      ensures Apart(s.ranges[i], range) || SameRange(s.ranges[i], range)
    {
      ServesLonger(s, after, s.ranges[i], paths[i], files, digest);
      assert i < k ==> Apart(s.ranges[i], s.ranges[k]) || SameRange(s.ranges[i], s.ranges[k]);
      assert k < i ==> Apart(s.ranges[k], s.ranges[i]) || SameRange(s.ranges[k], s.ranges[i]);
    }
    forall other | other in after.blobs ensures Represented(after, other, after.blobs[other], files, digest) {
      RepresentedLonger(s, after, other, s.blobs[other], files, digest);
    }
  }

  lemma ReuseRange(s: Packing, after: Packing, path: Text, data: seq<byte>, files: Files, digest: Digest)
    returns (k: nat)
    requires files(path) == Some(data) && digest(data) in s.blobs && s.blobs[digest(data)].length == |data|
    requires files(s.blobs[digest(data)].path) == Some(data)
    requires Represented(s, digest(data), s.blobs[digest(data)], files, digest)
    requires after == Reuse(s, data, digest(data))
    ensures k < |s.ranges| && SameRange(s.ranges[k], after.ranges[|s.ranges|])
    ensures Serves(after, after.ranges[|s.ranges|], path, files, digest)
  {
    var blob := s.blobs[digest(data)];
    k :| 0 <= k < |s.ranges| && s.ranges[k].offset == blob.offset && s.ranges[k].length == blob.length;
  }

  lemma AppendKeeps(s: Packing, paths: seq<Text>, path: Text, data: seq<byte>, files: Files, digest: Digest)
    requires Packed(s, paths, files, digest) && files(path) == Some(data)
    requires |s.pack| + |data| < U64_LIMIT
    ensures Packed(Append(s, path, data, digest(data)), paths + [path], files, digest)
  {
    hide Serves, Represented;
    var after := Append(s, path, data, digest(data));
    var range := after.ranges[|paths|];
    assert after.ranges[..|paths|] == s.ranges;
    AppendServes(s, after, path, data, files, digest);
    forall i | 0 <= i < |paths|
      ensures Serves(after, after.ranges[i], paths[i], files, digest) && Apart(s.ranges[i], range)
    {
      ServesLonger(s, after, s.ranges[i], paths[i], files, digest);
      ServedInside(s, s.ranges[i], paths[i], files, digest);
    }
    forall other | other in after.blobs ensures Represented(after, other, after.blobs[other], files, digest) {
      if other in s.blobs {
        RepresentedLonger(s, after, other, s.blobs[other], files, digest);
      }
    }
  }

  lemma ServedInside(s: Packing, range: Range, path: Text, files: Files, digest: Digest)
    requires Serves(s, range, path, files, digest)
    ensures range.offset + range.length <= |s.pack|
  {
  }

  lemma AppendServes(s: Packing, after: Packing, path: Text, data: seq<byte>, files: Files, digest: Digest)
    requires files(path) == Some(data) && after == Append(s, path, data, digest(data))
    ensures Serves(after, after.ranges[|s.ranges|], path, files, digest)
    ensures Represented(after, digest(data), Blob(|s.pack|, |data|, path), files, digest)
  {
    assert after.pack[|s.pack|..|s.pack| + |data|] == data;
    assert after.ranges[|s.ranges|] == Range(|s.pack|, |data|, Prefix(digest(data)));
  }

  /**
   * Deduplicated packing is transparent: every slice is its file even under digest collisions,
   * ranges coincide or are disjoint, and no byte is lost or invented.
   */
  lemma {:induction false} PackIsFaithful(paths: seq<Text>, files: Files, digest: Digest, dedup: bool)
    requires PackAll(paths, files, digest, dedup).Ok?
    ensures Packed(PackAll(paths, files, digest, dedup).value, paths, files, digest)
  {
    hide Packed, Reuse, Append;
    if paths == [] {
      StartPacked(files, digest);
    } else {
      var front, last := paths[..|paths| - 1], paths[|paths| - 1];
      PackIsFaithful(front, files, digest, dedup);
      assert paths == front + [last];
      var s, after := PackAll(front, files, digest, dedup).value, PackAll(paths, files, digest, dedup).value;
      var data := files(last).value;
      if dedup && digest(data) in s.blobs && s.blobs[digest(data)].length == |data|
         && files(s.blobs[digest(data)].path) == Some(data)
      {
        ReuseKeeps(s, front, last, data, files, digest);
      } else {
        AppendKeeps(s, front, last, data, files, digest);
      }
    }
  }

  lemma StartPacked(files: Files, digest: Digest)
    ensures Packed(START, [], files, digest)
  {
  }

  /* ---- How much is shared. ---- */

  /** No two readable files among `paths` differ and share a digest. */
  ghost predicate NoCollision(paths: seq<Text>, files: Files, digest: Digest) {
    forall p, q :: p in paths && q in paths && files(p).Some? && files(q).Some? ==>
      digest(files(p).value) == digest(files(q).value) ==> files(p) == files(q)
  }

  /** The asset's content has a representative at the asset's own range. */
  ghost predicate SharesRange(s: Packing, range: Range, path: Text, files: Files, digest: Digest) {
    && files(path).Some?
    && var key := digest(files(path).value);
       key in s.blobs && s.blobs[key].offset == range.offset && s.blobs[key].length == range.length
       && files(s.blobs[key].path) == files(path)
  }

  ghost predicate Shared(s: Packing, paths: seq<Text>, files: Files, digest: Digest) {
    && |s.ranges| == |paths| && s.blobCount == |s.blobs|
    && (forall key :: key in s.blobs ==>
          s.blobs[key].path in paths && files(s.blobs[key].path).Some?
          && key == digest(files(s.blobs[key].path).value)
          && s.blobs[key].length == |files(s.blobs[key].path).value|)
    && (forall i :: 0 <= i < |paths| ==> SharesRange(s, s.ranges[i], paths[i], files, digest))
  }

  lemma StepSharesOthers(s: Packing, after: Packing, range: Range, path: Text, files: Files, digest: Digest)
    requires SharesRange(s, range, path, files, digest)
    requires forall key :: key in s.blobs ==> key in after.blobs && after.blobs[key] == s.blobs[key]
    ensures SharesRange(after, range, path, files, digest)
  {
  }

  /** Without collisions a step reuses the one blob of its digest, or appends. */
  lemma StepWithout(s: Packing, after: Packing, paths: seq<Text>, path: Text, files: Files, digest: Digest)
    requires Shared(s, paths, files, digest) && PackOne(s, path, files, digest, true) == Ok(after)
    requires NoCollision(paths + [path], files, digest)
    ensures files(path).Some?
    ensures var data, key := files(path).value, digest(files(path).value);
            if key in s.blobs
            then files(s.blobs[key].path) == files(path) && s.blobs[key].length == |data|
              && after == Reuse(s, data, key)
            else after == Append(s, path, data, key)
  {
    hide SharesRange;
    var key := digest(files(path).value);
    if key in s.blobs {
      assert s.blobs[key].path in paths + [path] && path in paths + [path];
      assert files(s.blobs[key].path) == files(path);
    }
  }

  lemma StepShares(s: Packing, after: Packing, paths: seq<Text>, path: Text, files: Files, digest: Digest)
    requires Shared(s, paths, files, digest) && PackOne(s, path, files, digest, true) == Ok(after)
    requires NoCollision(paths + [path], files, digest)
    ensures Shared(after, paths + [path], files, digest)
  {
    StepWithout(s, after, paths, path, files, digest);
    StepRanges(s, after, path, files, digest);
    StepBlobs(s, after, paths, path, files, digest);
    hide SharesRange, NoCollision, PackOne, Reuse, Append;
    assert after.ranges[..|paths|] == s.ranges;
    forall i | 0 <= i < |paths| ensures SharesRange(after, after.ranges[i], paths[i], files, digest) {
      StepSharesOthers(s, after, s.ranges[i], paths[i], files, digest);
    }
    NewShares(s, after, path, files, digest);
  }

  /** A step appends one range and forgets no blob. */
  lemma StepRanges(s: Packing, after: Packing, path: Text, files: Files, digest: Digest)
    requires files(path).Some?
    requires var data, key := files(path).value, digest(files(path).value);
             if key in s.blobs then after == Reuse(s, data, key) else after == Append(s, path, data, key)
    ensures |after.ranges| == |s.ranges| + 1 && after.ranges[..|s.ranges|] == s.ranges
    ensures forall key :: key in s.blobs ==> key in after.blobs && after.blobs[key] == s.blobs[key]
  {
  }

  lemma StepBlobs(s: Packing, after: Packing, paths: seq<Text>, path: Text, files: Files, digest: Digest)
    requires Shared(s, paths, files, digest) && files(path).Some?
    requires var data, key := files(path).value, digest(files(path).value);
             if key in s.blobs then after == Reuse(s, data, key) else after == Append(s, path, data, key)
    ensures after.blobCount == |after.blobs|
    ensures forall key :: key in after.blobs ==>
              after.blobs[key].path in paths + [path] && files(after.blobs[key].path).Some?
              && key == digest(files(after.blobs[key].path).value)
              && after.blobs[key].length == |files(after.blobs[key].path).value|
  {
    hide SharesRange;
  }

  lemma NewShares(s: Packing, after: Packing, path: Text, files: Files, digest: Digest)
    requires files(path).Some?
    requires var data, key := files(path).value, digest(files(path).value);
             if key in s.blobs
             then files(s.blobs[key].path) == files(path) && s.blobs[key].length == |data|
               && after == Reuse(s, data, key)
             else after == Append(s, path, data, key)
    ensures SharesRange(after, after.ranges[|s.ranges|], path, files, digest)
  {
  }

  lemma {:induction false} SharedByContent(paths: seq<Text>, files: Files, digest: Digest)
    requires PackAll(paths, files, digest, true).Ok? && NoCollision(paths, files, digest)
    ensures Shared(PackAll(paths, files, digest, true).value, paths, files, digest)
  {
    hide PackOne;
    if paths != [] {
      var front, last := paths[..|paths| - 1], paths[|paths| - 1];
      assert paths == front + [last];
      SharedByContent(front, files, digest);
      StepShares(PackAll(front, files, digest, true).value, PackAll(paths, files, digest, true).value,
                 front, last, files, digest);
    }
  }

  /** Without digest collisions deduplication is complete: equal files share one range. */
  lemma EqualFilesShareRange(paths: seq<Text>, files: Files, digest: Digest, i: nat, j: nat)
    requires PackAll(paths, files, digest, true).Ok? && NoCollision(paths, files, digest)
    requires i < |paths| && j < |paths| && files(paths[i]) == files(paths[j])
    ensures var ranges := PackAll(paths, files, digest, true).value.ranges;
            |ranges| == |paths| && SameRange(ranges[i], ranges[j])
  {
    SharedByContent(paths, files, digest);
    var s := PackAll(paths, files, digest, true).value;
    assert SharesRange(s, s.ranges[i], paths[i], files, digest) && SharesRange(s, s.ranges[j], paths[j], files, digest);
  }

  /** The blobs written are then exactly the distinct contents. */
  lemma BlobsAreContents(paths: seq<Text>, files: Files, digest: Digest)
    requires PackAll(paths, files, digest, true).Ok? && NoCollision(paths, files, digest)
    ensures PackAll(paths, files, digest, true).value.blobCount
         == |set path | path in paths && files(path).Some? :: files(path).value|
  {
    SharedByContent(paths, files, digest);
    var s := PackAll(paths, files, digest, true).value;
    var contents := set path | path in paths && files(path).Some? :: files(path).value;
    forall key | key in s.blobs ensures key in (set data | data in contents :: digest(data)) {
      assert files(s.blobs[key].path).value in contents;
    }
    forall data | data in contents ensures digest(data) in s.blobs {
      var path :| path in paths && files(path) == Some(data);
      var i :| 0 <= i < |paths| && paths[i] == path;
      assert SharesRange(s, s.ranges[i], paths[i], files, digest);
    }
    assert s.blobs.Keys == (set data | data in contents :: digest(data));
    DigestsCounted(contents, digest);
  }

  lemma {:induction false} DigestsCounted(contents: set<seq<byte>>, digest: Digest)
    requires forall a, b :: a in contents && b in contents && digest(a) == digest(b) ==> a == b
    ensures |set data | data in contents :: digest(data)| == |contents|
  {
    var digests := set data | data in contents :: digest(data);
    if contents == {} {
      assert digests == {};
    } else {
      var data :| data in contents;
      var rest := contents - {data};
      DigestsCounted(rest, digest);
      assert digests == (set other | other in rest :: digest(other)) + {digest(data)};
    }
  }

  /** Without deduplication every asset is written. */
  lemma {:induction false} PlainPackKeepsEverything(paths: seq<Text>, files: Files, digest: Digest)
    requires PackAll(paths, files, digest, false).Ok?
    ensures var s := PackAll(paths, files, digest, false).value;
            s.blobCount == |paths| && s.deduplicatedBytes == 0 && |s.pack| == s.sourceBytes
  {
    if paths != [] {
      PlainPackKeepsEverything(paths[..|paths| - 1], files, digest);
    }
  }

  /** With a collision a repeated file may be stored again: still faithfully, but not shared. */
  lemma CollidingFilesAreKept(a: seq<byte>, b: seq<byte>)
    requires a != b && |a| == |b| && |a| < 1000
    ensures var files: Files := (p: Text) => if p == [1] then Some(a) else Some(b);
            var digest: Digest := (_: seq<byte>) => [];
            var r := PackAll([[1], [2], [3]], files, digest, true);
            r.Ok? && r.value.pack == a + b + b && r.value.blobCount == 3
  {
    var files: Files := (p: Text) => if p == [1] then Some(a) else Some(b);
    var digest: Digest := (_: seq<byte>) => [];
    assert [] + a == a;
    PackAllAppend([], [1], files, digest, true);
    assert [] + [[1]] == [[1]];
    var one := PackAll([[1]], files, digest, true).value;
    assert one.pack == a && one.blobs == map[[] := Blob(0, |a|, [1])];
    PackAllAppend([[1]], [2], files, digest, true);
    assert [[1]] + [[2]] == [[1], [2]];
    PackAllAppend([[1], [2]], [3], files, digest, true);
    assert [[1], [2]] + [[3]] == [[1], [2], [3]];
  }

  /* ---- When packing succeeds. ---- */

  function FileBytes(paths: seq<Text>, files: Files): nat {
    if paths == [] then 0
    else FileBytes(paths[..|paths| - 1], files) + |files(paths[|paths| - 1]).GetOr([])|
  }

  ghost predicate Packable(paths: seq<Text>, files: Files) {
    && (forall path :: path in paths ==> files(path).Some?)
    && FileBytes(paths, files) < U64_LIMIT
  }

  lemma PackablePrefix(front: seq<Text>, last: Text, files: Files)
    ensures Packable(front + [last], files) <==>
              Packable(front, files) && files(last).Some? && FileBytes(front, files) + |files(last).value| < U64_LIMIT
  {
    var paths := front + [last];
    assert paths[..|front|] == front && paths[|front|] == last && last in paths;
    assert forall path :: path in paths <==> path in front || path == last;
  }

  /** Packing fails exactly on an unreadable file or on 2^64 bytes of audio. */
  lemma {:induction false} PackSucceeds(paths: seq<Text>, files: Files, digest: Digest, dedup: bool)
    ensures PackAll(paths, files, digest, dedup).Ok? <==> Packable(paths, files)
    ensures PackAll(paths, files, digest, dedup).Ok? ==>
              var s := PackAll(paths, files, digest, dedup).value;
              && s.sourceBytes == FileBytes(paths, files) && |s.pack| <= s.sourceBytes
              && forall key :: key in s.blobs ==> files(s.blobs[key].path).Some?
  {
    if paths != [] {
      var front, last := paths[..|paths| - 1], paths[|paths| - 1];
      assert paths == front + [last];
      PackSucceeds(front, files, digest, dedup);
      PackablePrefix(front, last, files);
      hide Packable;
    }
  }

  /** A finished pack is empty exactly when all files are. */
  lemma EmptyPack(s: Packing, paths: seq<Text>, files: Files, digest: Digest)
    requires Packed(s, paths, files, digest) && s.sourceBytes == FileBytes(paths, files)
    ensures s.pack == [] <==> FileBytes(paths, files) == 0
  {
    if s.pack == [] {
      forall path | path in paths ensures files(path) == Some([]) {
        var i :| 0 <= i < |paths| && paths[i] == path;
        assert Serves(s, s.ranges[i], paths[i], files, digest);
      }
      NoBytes(paths, files);
    }
  }

  lemma {:induction false} NoBytes(paths: seq<Text>, files: Files)
    requires forall path :: path in paths ==> files(path) == Some([])
    ensures FileBytes(paths, files) == 0
  {
    if paths != [] { NoBytes(paths[..|paths| - 1], files); }
  }
}
