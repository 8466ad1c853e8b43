/** `build_mph`: the CHD minimal perfect hash over the sorted terms. */
module Mph {
  import opened Wrappers
  import opened Text
  import opened LittleEndian
  import opened Strings
  import opened Layout
  import opened Sorting

  /** Seeded XXH3 of a key; nothing is assumed about it, so every collision is possible. */
  type Seeded = (Text, nat) -> nat

  /** One bucket for every four terms begun, and at least one. */
  function BucketCount(n: nat): (count: nat)
    ensures count >= 1 && 4 * count >= n && (count > 1 ==> 4 * (count - 1) < n)
  {
    if n == 0 then 1 else (n + 3) / 4
  }

  function BucketOf(term: TermEntry, bucketCount: nat): (b: nat)
    requires bucketCount > 0
    ensures b < bucketCount
  {
    term.hash % bucketCount
  }

  /** The slot a displacement sends a key to: negative values name the slot itself. */
  function SlotOf(key: Text, displacement: int, n: nat, seeded: Seeded): int
    requires n > 0
  {
    if displacement < 0 then -displacement - 1 else seeded(key, displacement) % n
  }

  /** `keys[i]` is the text of `terms[i]`, and no text occurs twice. */
  ghost predicate Keyed(terms: seq<TermEntry>, keys: seq<Text>, strings: seq<byte>) {
    && |keys| == |terms|
    && (forall i :: 0 <= i < |terms| ==> Holds(strings, terms[i].text, keys[i]))
    && (forall i, j :: 0 <= i < j < |keys| ==> keys[i] != keys[j])
  }

  /** A collision-safe minimal perfect hash: a bijection from the terms to the slots. */
  ghost predicate Perfect(
    terms: seq<TermEntry>, keys: seq<Text>, seeded: Seeded,
    displacements: seq<int>, slots: seq<TermEntry>)
    requires |keys| == |terms|
  {
    var n, buckets := |terms|, BucketCount(|terms|);
    && |slots| == n
    && |displacements| == (if n == 0 then 0 else buckets)
    && (forall b :: 0 <= b < |displacements| ==> I32_MIN <= displacements[b] <= I32_MAX)
    // Every term resolves to itself, and only empty buckets carry the sentinel.
    && (n > 0 ==> forall i :: 0 <= i < n ==>
          Resolves(terms[i], keys[i], seeded, displacements, slots))
    && (n > 0 ==> forall b :: 0 <= b < buckets && displacements[b] != I32_MIN ==>
          exists i :: 0 <= i < n && BucketOf(terms[i], buckets) == b)
    // Every slot holds a term that resolves to it.
    && (n > 0 ==> forall s :: 0 <= s < n ==> Occupied(s, terms, keys, seeded, displacements, slots))
    // No two terms share a slot.
    && (n > 0 ==> forall i, j :: 0 <= i < j < n ==>
          SlotOf(keys[i], displacements[BucketOf(terms[i], buckets)], n, seeded)
          != SlotOf(keys[j], displacements[BucketOf(terms[j], buckets)], n, seeded))
  }

  ghost predicate Occupied(
    s: nat, terms: seq<TermEntry>, keys: seq<Text>, seeded: Seeded,
    displacements: seq<int>, slots: seq<TermEntry>)
    requires |keys| == |terms| == |slots| && s < |slots| && |displacements| == BucketCount(|slots|)
  {
    exists i :: 0 <= i < |terms| && slots[s] == terms[i]
      && SlotOf(keys[i], displacements[BucketOf(terms[i], |displacements|)], |slots|, seeded) == s
  }

  ghost predicate Resolves(
    term: TermEntry, key: Text, seeded: Seeded, displacements: seq<int>, slots: seq<TermEntry>)
    requires |slots| > 0 && |displacements| == BucketCount(|slots|)
  {
    var d := displacements[BucketOf(term, |displacements|)];
    d != I32_MIN
    && 0 <= SlotOf(key, d, |slots|, seeded) < |slots|
    && slots[SlotOf(key, d, |slots|, seeded)] == term
  }

  /* ---- Buckets. ---- */

  /** Bucket `b` lists, without repetition, exactly the terms hashed to it. */
  ghost predicate Bucketed(terms: seq<TermEntry>, buckets: seq<seq<nat>>, done: nat) {
    && |buckets| > 0
    && done <= |terms|
    && (forall b, k :: 0 <= b < |buckets| && 0 <= k < |buckets[b]| ==>
          buckets[b][k] < done && BucketOf(terms[buckets[b][k]], |buckets|) == b)
    && (forall b, k, l :: 0 <= b < |buckets| && 0 <= k < l < |buckets[b]| ==>
          buckets[b][k] != buckets[b][l])
    && (forall i :: 0 <= i < done ==> i in buckets[BucketOf(terms[i], |buckets|)])
  }

  /** The terms among the first `done` that hash to bucket `b`, in term order. */
  ghost function TermsIn(terms: seq<TermEntry>, bucketCount: nat, b: nat, done: nat): seq<nat>
    requires bucketCount > 0 && done <= |terms|
  {
    if done == 0 then []
    else
      var front := TermsIn(terms, bucketCount, b, done - 1);
      if BucketOf(terms[done - 1], bucketCount) == b then front + [done - 1] else front
  }

  ghost function BucketsOf(terms: seq<TermEntry>): (buckets: seq<seq<nat>>)
    ensures |buckets| == BucketCount(|terms|)
  {
    seq(BucketCount(|terms|), b requires 0 <= b => TermsIn(terms, BucketCount(|terms|), b, |terms|))
  }

  /** The buckets after the first `done` terms. */
  ghost predicate BucketsAfter(terms: seq<TermEntry>, buckets: seq<seq<nat>>, done: nat) {
    && |buckets| == BucketCount(|terms|) && Bucketed(terms, buckets, done)
    && (forall b :: 0 <= b < |buckets| ==> buckets[b] == TermsIn(terms, |buckets|, b, done))
  }

  method FillBuckets(terms: seq<TermEntry>) returns (buckets: seq<seq<nat>>)
    ensures buckets == BucketsOf(terms) && Bucketed(terms, buckets, |terms|)
  {
    hide *;
    var bucketCount := BucketCount(|terms|);
    buckets := seq(bucketCount, _ => []);
    NothingFilled(terms, buckets);
    var i := 0;
    while i < |terms|
      invariant 0 <= i <= |terms|
      invariant |buckets| == bucketCount && BucketsAfter(terms, buckets, i)
    {
      var b := BucketOf(terms[i], bucketCount);
      FillOne(terms, buckets, i);
      buckets := buckets[b := buckets[b] + [i]];
      i := i + 1;
    }
    AllFilled(terms, buckets);
  }

  lemma NothingFilled(terms: seq<TermEntry>, buckets: seq<seq<nat>>)
    requires |buckets| == BucketCount(|terms|) && forall b :: 0 <= b < |buckets| ==> buckets[b] == []
    ensures BucketsAfter(terms, buckets, 0)
  {
  }

  lemma FillOne(terms: seq<TermEntry>, buckets: seq<seq<nat>>, i: nat)
    requires i < |terms| && BucketsAfter(terms, buckets, i)
    ensures var b := BucketOf(terms[i], |buckets|); BucketsAfter(terms, buckets[b := buckets[b] + [i]], i + 1)
  {
    BucketStep(terms, buckets, i);
    hide Bucketed, BucketOf, BucketCount;
  }

  lemma AllFilled(terms: seq<TermEntry>, buckets: seq<seq<nat>>)
    requires BucketsAfter(terms, buckets, |terms|)
    ensures buckets == BucketsOf(terms) && Bucketed(terms, buckets, |terms|)
  {
    hide Bucketed, TermsIn, BucketCount;
  }

  lemma BucketStep(terms: seq<TermEntry>, buckets: seq<seq<nat>>, i: nat)
    requires i < |terms| && Bucketed(terms, buckets, i)
    ensures var b := BucketOf(terms[i], |buckets|);
            Bucketed(terms, buckets[b := buckets[b] + [i]], i + 1)
  {
    var b := BucketOf(terms[i], |buckets|);
    var after := buckets[b := buckets[b] + [i]];
    forall c, k | 0 <= c < |after| && 0 <= k < |after[c]|
      ensures after[c][k] < i + 1 && BucketOf(terms[after[c][k]], |after|) == c
    {
      if k < |buckets[c]| {
        assert after[c][k] == buckets[c][k];
      }
    }
    forall c, k, l | 0 <= c < |after| && 0 <= k < l < |after[c]|
      ensures after[c][k] != after[c][l]
    {
      assert after[c][k] == buckets[c][k];
    }
    forall j | 0 <= j < i + 1 ensures j in after[BucketOf(terms[j], |after|)] {
      if j < i {
        assert j in buckets[BucketOf(terms[j], |buckets|)];
      } else {
        assert after[b][|buckets[b]|] == i;
      }
    }
  }

  function SizeKey(buckets: seq<seq<nat>>): nat -> RankKey {
    (b: nat) => RankKey(if b < |buckets| then -|buckets[b]| else 0, 0, None, 0)
  }

  function Indices(n: nat): (s: seq<nat>)
    ensures |s| == n && forall i :: 0 <= i < n ==> s[i] == i
  {
    seq(n, i => i)
  }

  /** Largest buckets first; each bucket once. */
  function BucketOrder(buckets: seq<seq<nat>>): seq<nat> {
    SortByKey(Indices(|buckets|), SizeKey(buckets))
  }

  lemma BucketOrderVisitsOnce(buckets: seq<seq<nat>>)
    ensures |BucketOrder(buckets)| == |buckets|
    ensures forall b :: b in BucketOrder(buckets) <==> 0 <= b < |buckets|
    ensures forall k, l :: 0 <= k < l < |buckets| ==> BucketOrder(buckets)[k] != BucketOrder(buckets)[l]
  {
    var all, order := Indices(|buckets|), BucketOrder(buckets);
    forall b ensures b in order <==> b in all {
      SortMembers(all, SizeKey(buckets), b);
    }
    forall b | 0 <= b < |buckets| ensures b in all {
      assert all[b] == b;
    }
    SortMultiset(all, SizeKey(buckets));
    forall k, l | 0 <= k < l < |buckets| ensures order[k] != order[l] {
      IndexOnce(|buckets|, order[k]);
      CountedTwice(order, k, l);
    }
  }

  lemma LargestFirst(buckets: seq<seq<nat>>, k: nat, l: nat)
    requires k < l < |buckets|
    ensures BucketOrder(buckets)[k] < |buckets| && BucketOrder(buckets)[l] < |buckets|
    ensures |buckets[BucketOrder(buckets)[k]]| >= |buckets[BucketOrder(buckets)[l]]|
  {
    BucketOrderVisitsOnce(buckets);
    var order := BucketOrder(buckets);
    SortSorted(Indices(|buckets|), SizeKey(buckets));
    assert order[k] in order && order[l] in order;
    assert !KeyLess(SizeKey(buckets)(order[l]), SizeKey(buckets)(order[k]));
  }

  lemma {:induction false} IndexOnce(n: nat, b: nat)
    ensures multiset(Indices(n))[b] <= 1
  {
    if n > 0 {
      IndexOnce(n - 1, b);
      assert Indices(n) == Indices(n - 1) + [n - 1];
      if b == n - 1 {
        assert b !in Indices(n - 1);
        assert b !in multiset(Indices(n - 1));
      }
    }
  }

  /* ---- Searching a displacement. ---- */

  /** Under displacement `d` the bucket lands on distinct free slots. */
  ghost predicate Fits(
    bucket: seq<nat>, keys: seq<Text>, used: seq<bool>, d: nat, seeded: Seeded)
    requires |used| > 0 && forall k :: 0 <= k < |bucket| ==> bucket[k] < |keys|
  {
    && (forall k :: 0 <= k < |bucket| ==> !used[SlotOf(keys[bucket[k]], d, |used|, seeded)])
    && (forall k, l :: 0 <= k < l < |bucket| ==>
          SlotOf(keys[bucket[k]], d, |used|, seeded) != SlotOf(keys[bucket[l]], d, |used|, seeded))
  }

  /** One pass over the bucket: the slots it takes, or nothing at the first clash. */
  method TryDisplacement(
    terms: seq<TermEntry>, strings: seq<byte>, ghost keys: seq<Text>,
    bucket: seq<nat>, used: array<bool>, d: nat, seeded: Seeded)
    returns (valid: bool, candidates: seq<nat>)
    requires Keyed(terms, keys, strings) && used.Length == |terms| > 0
    requires forall k :: 0 <= k < |bucket| ==> bucket[k] < |terms|
    ensures valid <==> Fits(bucket, keys, used[..], d, seeded)
    ensures valid ==> |candidates| == |bucket|
    ensures valid ==> forall k :: 0 <= k < |bucket| ==>
              candidates[k] < used.Length
              && candidates[k] == SlotOf(keys[bucket[k]], d, used.Length, seeded)
  {
    candidates := [];
    var k := 0;
    while k < |bucket|
      invariant 0 <= k <= |bucket| && |candidates| == k
      invariant forall j :: 0 <= j < k ==>
                  candidates[j] < used.Length
                  && candidates[j] == SlotOf(keys[bucket[j]], d, used.Length, seeded)
                  && !used[candidates[j]]
      invariant forall i, j :: 0 <= i < j < k ==> candidates[i] != candidates[j]
    {
      var key := StringBytes(strings, terms[bucket[k]].text).value;
      var slot := seeded(key, d) % |terms|;
      assert slot == SlotOf(keys[bucket[k]], d, used.Length, seeded);
      if used[slot] || slot in candidates {
        return false, [];
      }
      candidates := candidates + [slot];
      k := k + 1;
    }
    valid := true;
  }

  /** The search counts up from zero and gives up exactly past `i32::MAX`. */
  method FindDisplacement(
    terms: seq<TermEntry>, strings: seq<byte>, ghost keys: seq<Text>,
    bucket: seq<nat>, used: array<bool>, seeded: Seeded)
    returns (r: Result<(nat, seq<nat>)>)
    requires Keyed(terms, keys, strings) && used.Length == |terms| > 0
    requires forall k :: 0 <= k < |bucket| ==> bucket[k] < |terms|
    ensures r.Ok? ==> r.value.0 <= I32_MAX && Fits(bucket, keys, used[..], r.value.0, seeded)
    ensures r.Ok? ==> forall e :: 0 <= e < r.value.0 ==> !Fits(bucket, keys, used[..], e, seeded)
    ensures r.Ok? ==> |r.value.1| == |bucket|
    ensures r.Ok? ==> forall k :: 0 <= k < |bucket| ==>
              r.value.1[k] < used.Length
              && r.value.1[k] == SlotOf(keys[bucket[k]], r.value.0, used.Length, seeded)
    ensures r.Err? ==> forall e :: 0 <= e <= I32_MAX ==> !Fits(bucket, keys, used[..], e, seeded)
  {
    var displacement := 0;
    while true
      invariant 0 <= displacement <= I32_MAX
      invariant forall e :: 0 <= e < displacement ==> !Fits(bucket, keys, used[..], e, seeded)
      decreases I32_MAX - displacement
    {
      var valid, candidates :=
        TryDisplacement(terms, strings, keys, bucket, used, displacement, seeded);
      if valid {
        return Ok((displacement, candidates));
      }
      displacement := displacement + 1;
      if displacement > I32_MAX {
        return Err("CHD displacement exceeds i32");
      }
    }
  }

  /* ---- The search over all buckets. ---- */

  /** The displacement the search settles on: the first one that fits. */
  ghost predicate LeastFit(
    bucket: seq<nat>, keys: seq<Text>, used: seq<bool>, d: nat, seeded: Seeded)
    requires |used| > 0 && forall k :: 0 <= k < |bucket| ==> bucket[k] < |keys|
  {
    && d <= I32_MAX && Fits(bucket, keys, used, d, seeded)
    && forall e :: 0 <= e < d ==> !Fits(bucket, keys, used, e, seeded)
  }

  /** No displacement the code may use separates the bucket. */
  ghost predicate Inseparable(bucket: seq<nat>, keys: seq<Text>, used: seq<bool>, seeded: Seeded)
    requires |used| > 0 && forall k :: 0 <= k < |bucket| ==> bucket[k] < |keys|
  {
    forall d :: 0 <= d <= I32_MAX ==> !Fits(bucket, keys, used, d, seeded)
  }

  ghost predicate Lands(bucket: seq<nat>, keys: seq<Text>, n: nat, d: nat, seeded: Seeded, slot: nat)
    requires n > 0 && forall k :: 0 <= k < |bucket| ==> bucket[k] < |keys|
  {
    exists k :: 0 <= k < |bucket| && SlotOf(keys[bucket[k]], d, n, seeded) == slot
  }

  /** The used slots once the bucket has taken displacement `d`. */
  ghost function Claimed(
    bucket: seq<nat>, keys: seq<Text>, used: seq<bool>, d: nat, seeded: Seeded): (after: seq<bool>)
    requires |used| > 0 && forall k :: 0 <= k < |bucket| ==> bucket[k] < |keys|
    ensures |after| == |used|
  {
    seq(|used|, s requires 0 <= s < |used| => used[s] || Lands(bucket, keys, |used|, d, seeded, s))
  }

  lemma {:induction false} TermsInRange(terms: seq<TermEntry>, bucketCount: nat, b: nat, done: nat)
    requires bucketCount > 0 && done <= |terms|
    ensures forall k :: 0 <= k < |TermsIn(terms, bucketCount, b, done)| ==>
              TermsIn(terms, bucketCount, b, done)[k] < done
  {
    if done > 0 {
      TermsInRange(terms, bucketCount, b, done - 1);
    }
  }

  /** The bucket visited at `step`. */
  ghost function Visited(terms: seq<TermEntry>, step: nat): (bucket: seq<nat>)
    requires step < BucketCount(|terms|)
    ensures forall k :: 0 <= k < |bucket| ==> bucket[k] < |terms|
  {
    var buckets := BucketsOf(terms);
    BucketOrderVisitsOnce(buckets);
    var b := BucketOrder(buckets)[step];
    assert b in BucketOrder(buckets);
    TermsInRange(terms, |buckets|, b, |terms|);
    buckets[b]
  }

  /**
   * The used slots after the first `step` buckets of the order, each of two or more terms at its
   * least fitting displacement; nothing once one of them is inseparable.
   */
  ghost function Searched(terms: seq<TermEntry>, keys: seq<Text>, seeded: Seeded, step: nat): (used: Option<seq<bool>>)
    requires |keys| == |terms| > 0 && step <= BucketCount(|terms|)
    ensures used.Some? ==> |used.value| == |terms|
  {
    if step == 0 then Some(seq(|terms|, _ => false))
    else
      var before, bucket := Searched(terms, keys, seeded, step - 1), Visited(terms, step - 1);
      if before.None? || |bucket| <= 1 then before
      else if d: nat :| LeastFit(bucket, keys, before.value, d, seeded) then
        Some(Claimed(bucket, keys, before.value, d, seeded))
      else None
  }

  /** The search reaches the bucket visited at `step`, and no displacement separates its terms. */
  ghost predicate StuckAt(terms: seq<TermEntry>, keys: seq<Text>, seeded: Seeded, step: nat)
    requires |keys| == |terms| > 0 && step < BucketCount(|terms|)
  {
    && |Visited(terms, step)| > 1 && Searched(terms, keys, seeded, step).Some?
    && Inseparable(Visited(terms, step), keys, Searched(terms, keys, seeded, step).value, seeded)
  }

  /** The search for displacements gets stuck. */
  ghost predicate GetsStuck(terms: seq<TermEntry>, keys: seq<Text>, seeded: Seeded)
    requires |keys| == |terms|
  {
    |terms| > 0 && exists step :: 0 <= step < BucketCount(|terms|) && StuckAt(terms, keys, seeded, step)
  }

  lemma LeastUnique(bucket: seq<nat>, keys: seq<Text>, used: seq<bool>, d: nat, e: nat, seeded: Seeded)
    requires |used| > 0 && forall k :: 0 <= k < |bucket| ==> bucket[k] < |keys|
    requires LeastFit(bucket, keys, used, d, seeded) && LeastFit(bucket, keys, used, e, seeded)
    ensures d == e
  {
    hide Fits;
  }

  lemma Separable(bucket: seq<nat>, keys: seq<Text>, used: seq<bool>, d: nat, seeded: Seeded)
    requires |used| > 0 && forall k :: 0 <= k < |bucket| ==> bucket[k] < |keys|
    requires LeastFit(bucket, keys, used, d, seeded)
    ensures !Inseparable(bucket, keys, used, seeded)
  {
    hide Fits;
  }

  /** One more bucket of the search. */
  lemma SearchStep(
    terms: seq<TermEntry>, keys: seq<Text>, seeded: Seeded, step: nat, used: seq<bool>, d: nat, after: seq<bool>)
    requires |keys| == |terms| > 0 && step < BucketCount(|terms|)
    requires Searched(terms, keys, seeded, step) == Some(used)
    requires if |Visited(terms, step)| <= 1 then after == used
             else LeastFit(Visited(terms, step), keys, used, d, seeded)
                  && after == Claimed(Visited(terms, step), keys, used, d, seeded)
    ensures Searched(terms, keys, seeded, step + 1) == Some(after)
    ensures !StuckAt(terms, keys, seeded, step)
  {
    hide Fits, Claimed, Visited, LeastFit;
    var bucket := Visited(terms, step);
    if |bucket| > 1 {
      Separable(bucket, keys, used, d, seeded);
      forall e: nat | LeastFit(bucket, keys, used, e, seeded) ensures e == d {
        LeastUnique(bucket, keys, used, d, e, seeded);
      }
    }
  }

  /* ---- Placing terms. ---- */

  /** `assign` sends each placed term to its own slot, and exactly those slots are used. */
  ghost predicate Placed(
    terms: seq<TermEntry>, assign: map<nat, nat>, used: seq<bool>, slots: seq<Option<TermEntry>>)
  {
    && |used| == |slots| == |terms|
    && (forall i :: i in assign ==> i < |terms| && assign[i] < |terms|)
    && (forall i, j :: i in assign && j in assign && i != j ==> assign[i] != assign[j])
    && (forall s :: 0 <= s < |used| ==> (used[s] <==> s in assign.Values))
    && (forall i :: i in assign ==> slots[assign[i]] == Some(terms[i]))
  }

  /** The displacement of every placed term's bucket computes the slot it was given. */
  ghost predicate Displaced(
    terms: seq<TermEntry>, keys: seq<Text>, seeded: Seeded,
    assign: map<nat, nat>, displacements: seq<int>)
  {
    && |keys| == |terms| > 0
    && |displacements| > 0
    && (forall b :: 0 <= b < |displacements| ==> I32_MIN <= displacements[b] <= I32_MAX)
    && (forall i :: i in assign ==> i < |terms|)
    && (forall i :: i in assign ==>
          displacements[BucketOf(terms[i], |displacements|)] != I32_MIN
          && SlotOf(keys[i], displacements[BucketOf(terms[i], |displacements|)], |terms|, seeded)
             == assign[i])
    && (forall b :: 0 <= b < |displacements| && displacements[b] != I32_MIN ==>
          exists i :: 0 <= i < |terms| && BucketOf(terms[i], |displacements|) == b)
  }

  lemma PlaceOne(
    terms: seq<TermEntry>, assign: map<nat, nat>, used: seq<bool>, slots: seq<Option<TermEntry>>,
    i: nat, slot: nat)
    requires Placed(terms, assign, used, slots)
    requires i < |terms| && i !in assign && slot < |terms| && !used[slot]
    ensures Placed(terms, assign[i := slot], used[slot := true], slots[slot := Some(terms[i])])
  {
    var after := assign[i := slot];
    forall j | j in assign ensures after[j] == assign[j] != slot {
      assert assign[j] in assign.Values;
    }
    forall s | 0 <= s < |used| ensures used[slot := true][s] <==> s in after.Values {
      if s in assign.Values {
        var j :| j in assign && assign[j] == s;
        assert after[j] == s;
      }
      if s == slot {
        assert after[i] == slot;
      }
    }
  }

  /** Giving an untouched bucket its displacement disturbs no placed term. */
  lemma SetDisplacement(
    terms: seq<TermEntry>, keys: seq<Text>, seeded: Seeded,
    assign: map<nat, nat>, displacements: seq<int>, b: nat, d: int)
    requires Displaced(terms, keys, seeded, assign, displacements)
    requires b < |displacements| && I32_MIN <= d <= I32_MAX
    requires forall i :: i in assign ==> BucketOf(terms[i], |displacements|) != b
    requires exists i :: 0 <= i < |terms| && BucketOf(terms[i], |displacements|) == b
    ensures Displaced(terms, keys, seeded, assign, displacements[b := d])
  {
  }

  /** As many slots are used as terms are placed. */
  lemma {:induction false} UsedCount(assign: map<nat, nat>)
    requires forall i, j :: i in assign && j in assign && i != j ==> assign[i] != assign[j]
    ensures |assign.Values| == |assign|
  {
    if assign == map[] {
      assert assign.Values == {};
    } else {
      var i :| i in assign;
      var rest := assign - {i};
      UsedCount(rest);
      assert assign.Values == rest.Values + {assign[i]} by {
        forall s | s in assign.Values ensures s in rest.Values + {assign[i]} {
          var j :| j in assign && assign[j] == s;
          if j != i { assert rest[j] == s; }
        }
      }
      assert assign[i] !in rest.Values;
      assert assign.Keys == rest.Keys + {i};
    }
  }

  ghost function UpTo(n: nat): (r: set<nat>)
    ensures forall i: int :: i in r <==> 0 <= i < n
    ensures |r| == n
  {
    if n == 0 then {} else UpTo(n - 1) + {n - 1}
  }

  /** The counting argument: while some term is unplaced, some slot is free. */
  lemma FreeSlotExists(
    terms: seq<TermEntry>, assign: map<nat, nat>, used: seq<bool>, slots: seq<Option<TermEntry>>, i: nat)
    requires Placed(terms, assign, used, slots) && i < |terms| && i !in assign
    ensures exists s :: 0 <= s < |used| && !used[s]
  {
    UsedCount(assign);
    SubsetSmaller(assign.Keys, UpTo(|terms|), i);
    if forall s :: 0 <= s < |used| ==> used[s] {
      assert UpTo(|terms|) <= assign.Values;
      SubsetSize(UpTo(|terms|), assign.Values);
    }
  }

  lemma {:induction false} SubsetSize(a: set<nat>, b: set<nat>)
    requires a <= b
    ensures |a| <= |b|
  {
    if a != {} {
      var x :| x in a;
      SubsetSize(a - {x}, b - {x});
    }
  }

  lemma SubsetSmaller(a: set<nat>, b: set<nat>, x: nat)
    requires a <= b && x in b && x !in a
    ensures |a| < |b|
  {
    SubsetSize(a, b - {x});
  }

  /** Once every term is placed no slot is left over. */
  lemma AllSlotsFilled(
    terms: seq<TermEntry>, assign: map<nat, nat>, used: seq<bool>, slots: seq<Option<TermEntry>>)
    requires Placed(terms, assign, used, slots)
    requires forall i :: 0 <= i < |terms| ==> i in assign
    ensures forall s :: 0 <= s < |used| ==> used[s]
  {
    UsedCount(assign);
    assert assign.Keys == UpTo(|terms|);
    assert assign.Values <= UpTo(|terms|);
    forall s | 0 <= s < |used| ensures used[s] {
      if !used[s] {
        SubsetSmaller(assign.Values, UpTo(|terms|), s);
      }
    }
  }

  lemma DisplaceOne(
    terms: seq<TermEntry>, keys: seq<Text>, seeded: Seeded,
    assign: map<nat, nat>, displacements: seq<int>, i: nat, slot: nat)
    requires Displaced(terms, keys, seeded, assign, displacements) && i < |terms|
    requires displacements[BucketOf(terms[i], |displacements|)] != I32_MIN
    requires SlotOf(keys[i], displacements[BucketOf(terms[i], |displacements|)], |terms|, seeded) == slot
    ensures Displaced(terms, keys, seeded, assign[i := slot], displacements)
  {
  }

  /** The inner loop of the first phase: every term of one bucket takes its chosen slot. */
  method PlaceBucket(
    terms: seq<TermEntry>, ghost keys: seq<Text>, ghost seeded: Seeded,
    bucket: seq<nat>, chosen: seq<nat>,
    used: array<bool>, slots: array<Option<TermEntry>>,
    ghost displacements: seq<int>, ghost assign: map<nat, nat>)
    returns (ghost placed: map<nat, nat>)
    requires used.Length == slots.Length == |terms|
    requires |keys| == |terms| > 0 && |displacements| > 0
    requires Placed(terms, assign, used[..], slots[..])
    requires Displaced(terms, keys, seeded, assign, displacements)
    requires |chosen| == |bucket|
    requires forall k :: 0 <= k < |bucket| ==>
               bucket[k] < |terms| && bucket[k] !in assign
               && chosen[k] < |terms| && !used[chosen[k]]
               && displacements[BucketOf(terms[bucket[k]], |displacements|)] != I32_MIN
               && SlotOf(keys[bucket[k]],
                         displacements[BucketOf(terms[bucket[k]], |displacements|)], |terms|, seeded)
                  == chosen[k]
    requires forall k, l :: 0 <= k < l < |bucket| ==> bucket[k] != bucket[l] && chosen[k] != chosen[l]
    modifies used, slots
    ensures Placed(terms, placed, used[..], slots[..])
    ensures Displaced(terms, keys, seeded, placed, displacements)
    ensures forall i :: i in placed <==> i in assign || i in bucket
    ensures forall s :: 0 <= s < used.Length ==> used[s] == (old(used[s]) || s in chosen)
  {
    hide Placed, Displaced;
    placed := assign;
    var k := 0;
    while k < |bucket|
      invariant 0 <= k <= |bucket|
      invariant Placed(terms, placed, used[..], slots[..])
      invariant Displaced(terms, keys, seeded, placed, displacements)
      invariant forall i :: i in placed <==> i in assign || i in bucket[..k]
      invariant forall l :: k <= l < |bucket| ==> !used[chosen[l]]
      invariant forall s :: 0 <= s < used.Length ==> used[s] == (old(used[s]) || s in chosen[..k])
    {
      var i, slot := bucket[k], chosen[k];
      PlaceOne(terms, placed, used[..], slots[..], i, slot);
      DisplaceOne(terms, keys, seeded, placed, displacements, i, slot);
      ghost var u, s := used[..], slots[..];
      used[slot] := true;
      slots[slot] := Some(terms[i]);
      assert used[..] == u[slot := true] && slots[..] == s[slot := Some(terms[i])];
      placed := placed[i := slot];
      assert bucket[..k + 1] == bucket[..k] + [bucket[k]];
      assert chosen[..k + 1] == chosen[..k] + [slot];
      k := k + 1;
    }
    assert bucket[..k] == bucket && chosen[..k] == chosen;
  }

  /** What both placing phases share: the buckets, their order, and the terms placed so far. */
  ghost predicate Phase(
    terms: seq<TermEntry>, keys: seq<Text>, seeded: Seeded, buckets: seq<seq<nat>>,
    used: seq<bool>, slots: seq<Option<TermEntry>>, displacements: seq<int>, assign: map<nat, nat>)
  {
    && Bucketed(terms, buckets, |terms|)
    && |displacements| == |buckets|
    && Placed(terms, assign, used, slots)
    && Displaced(terms, keys, seeded, assign, displacements)
  }

  /** One bucket of the first phase. */
  method PlaceColliding(
    terms: seq<TermEntry>, strings: seq<byte>, ghost keys: seq<Text>, seeded: Seeded,
    ghost buckets: seq<seq<nat>>, b: nat, bucket: seq<nat>,
    used: array<bool>, slots: array<Option<TermEntry>>, displacements: array<int>,
    ghost assign: map<nat, nat>)
    returns (r: Result<()>, ghost placed: map<nat, nat>, ghost d: nat)
    requires Keyed(terms, keys, strings) && |buckets| == BucketCount(|terms|)
    requires b < |buckets| && buckets[b] == bucket && |bucket| > 1
    requires used.Length == slots.Length == |terms|
    requires Phase(terms, keys, seeded, buckets, used[..], slots[..], displacements[..], assign)
    requires forall i :: i in assign ==> BucketOf(terms[i], |buckets|) != b
    modifies used, slots, displacements
    ensures r.Ok? ==>
              Phase(terms, keys, seeded, buckets, used[..], slots[..], displacements[..], placed)
    ensures r.Ok? ==> forall i :: i in placed <==> i in assign || i in bucket
    ensures r.Ok? ==> LeastFit(bucket, keys, old(used[..]), d, seeded)
    ensures r.Ok? ==> used[..] == Claimed(bucket, keys, old(used[..]), d, seeded)
    ensures r.Err? ==> Inseparable(bucket, keys, old(used[..]), seeded)
  {
    hide Phase, Fits, LeastFit, Inseparable, Claimed;
    placed, d := assign, 0;
    InRange(terms, keys, seeded, buckets, b, used[..], slots[..], displacements[..], assign);
    var found := FindDisplacement(terms, strings, keys, bucket, used, seeded);
    ghost var was, before := displacements[..], used[..];
    FoundMeans(bucket, keys, before, seeded, found);
    if found.Err? {
      return Err(found.message), assign, 0;
    }
    var (displacement, chosen) := found.value;
    ReadyToPlace(terms, keys, seeded, buckets, b, before, slots[..], was, assign, displacement, chosen);
    displacements[b] := displacement;
    assert displacements[..] == was[b := displacement];
    placed := PlaceBucket(terms, keys, seeded, bucket, chosen, used, slots, displacements[..], assign);
    ChosenClaimed(bucket, chosen, keys, before, displacement, used[..], seeded);
    PhaseAgain(terms, keys, seeded, buckets, used[..], slots[..], displacements[..], placed);
    d := displacement;
    r := Ok(());
  }

  lemma InRange(
    terms: seq<TermEntry>, keys: seq<Text>, seeded: Seeded, buckets: seq<seq<nat>>, b: nat,
    used: seq<bool>, slots: seq<Option<TermEntry>>, displacements: seq<int>, assign: map<nat, nat>)
    requires Phase(terms, keys, seeded, buckets, used, slots, displacements, assign)
    requires b < |buckets| && |buckets[b]| > 0
    ensures |terms| == |keys| > 0 && |displacements| == |buckets| && Bucketed(terms, buckets, |terms|)
    ensures forall k :: 0 <= k < |buckets[b]| ==> buckets[b][k] < |terms|
  {
  }

  lemma FoundMeans(
    bucket: seq<nat>, keys: seq<Text>, used: seq<bool>, seeded: Seeded, found: Result<(nat, seq<nat>)>)
    requires |used| > 0 && forall k :: 0 <= k < |bucket| ==> bucket[k] < |keys|
    requires found.Ok? ==> found.value.0 <= I32_MAX && Fits(bucket, keys, used, found.value.0, seeded)
    requires found.Ok? ==> forall e :: 0 <= e < found.value.0 ==> !Fits(bucket, keys, used, e, seeded)
    requires found.Err? ==> forall e :: 0 <= e <= I32_MAX ==> !Fits(bucket, keys, used, e, seeded)
    ensures found.Ok? ==> LeastFit(bucket, keys, used, found.value.0, seeded)
    ensures found.Err? ==> Inseparable(bucket, keys, used, seeded)
  {
  }

  /** A fitting displacement makes room for every term of its bucket. */
  lemma ReadyToPlace(
    terms: seq<TermEntry>, keys: seq<Text>, seeded: Seeded, buckets: seq<seq<nat>>, b: nat,
    used: seq<bool>, slots: seq<Option<TermEntry>>, displacements: seq<int>, assign: map<nat, nat>,
    d: nat, chosen: seq<nat>)
    requires Phase(terms, keys, seeded, buckets, used, slots, displacements, assign)
    requires b < |buckets| && |buckets[b]| > 1 && d <= I32_MAX && |chosen| == |buckets[b]|
    requires |keys| == |terms| > 0 && forall k :: 0 <= k < |buckets[b]| ==> buckets[b][k] < |keys|
    requires forall i :: i in assign ==> BucketOf(terms[i], |buckets|) != b
    requires |used| > 0 && Fits(buckets[b], keys, used, d, seeded)
    requires forall k :: 0 <= k < |chosen| ==> chosen[k] == SlotOf(keys[buckets[b][k]], d, |used|, seeded)
    ensures Placed(terms, assign, used, slots) && Displaced(terms, keys, seeded, assign, displacements[b := d])
    ensures forall k :: 0 <= k < |chosen| ==>
              buckets[b][k] !in assign && chosen[k] < |terms| && !used[chosen[k]]
              && BucketOf(terms[buckets[b][k]], |buckets|) == b
              && SlotOf(keys[buckets[b][k]], d, |terms|, seeded) == chosen[k]
    ensures forall k, l :: 0 <= k < l < |chosen| ==> buckets[b][k] != buckets[b][l] && chosen[k] != chosen[l]
  {
    DistinctChoices(buckets[b], chosen, keys, used, d, seeded);
    assert BucketOf(terms[buckets[b][0]], |buckets|) == b;
    SetDisplacement(terms, keys, seeded, assign, displacements, b, d);
    hide Displaced, Fits, SlotOf, BucketOf;
  }

  lemma PhaseAgain(
    terms: seq<TermEntry>, keys: seq<Text>, seeded: Seeded, buckets: seq<seq<nat>>,
    used: seq<bool>, slots: seq<Option<TermEntry>>, displacements: seq<int>, assign: map<nat, nat>)
    requires Bucketed(terms, buckets, |terms|) && |displacements| == |buckets|
    requires Placed(terms, assign, used, slots) && Displaced(terms, keys, seeded, assign, displacements)
    ensures Phase(terms, keys, seeded, buckets, used, slots, displacements, assign)
  {
  }

  lemma ChosenClaimed(
    bucket: seq<nat>, chosen: seq<nat>, keys: seq<Text>, used: seq<bool>, d: nat, after: seq<bool>, seeded: Seeded)
    requires |used| == |after| > 0 && |chosen| == |bucket|
    requires forall k :: 0 <= k < |bucket| ==> bucket[k] < |keys|
    requires forall k :: 0 <= k < |bucket| ==> chosen[k] == SlotOf(keys[bucket[k]], d, |used|, seeded)
    requires forall s :: 0 <= s < |used| ==> after[s] == (used[s] || s in chosen)
    ensures after == Claimed(bucket, keys, used, d, seeded)
  {
    forall s | 0 <= s < |used| ensures s in chosen <==> Lands(bucket, keys, |used|, d, seeded, s) {
      if s in chosen {
        var k :| 0 <= k < |chosen| && chosen[k] == s;
        assert SlotOf(keys[bucket[k]], d, |used|, seeded) == s;
      }
    }
  }

  /** Which terms are placed: those of the visited buckets, and of all colliding ones if `all`. */
  ghost predicate PlacedThrough(
    terms: seq<TermEntry>, buckets: seq<seq<nat>>, visited: seq<nat>, all: bool, assign: map<nat, nat>)
    requires |buckets| > 0
  {
    forall i :: 0 <= i < |terms| ==>
      (i in assign <==>
        var b := BucketOf(terms[i], |buckets|);
        if |buckets[b]| > 1 then all || b in visited else all && b in visited)
  }

  /** After bucket `b` the visited buckets are one more. */
  lemma VisitBucket(
    terms: seq<TermEntry>, buckets: seq<seq<nat>>, order: seq<nat>, step: nat, all: bool,
    assign: map<nat, nat>, after: map<nat, nat>)
    requires Bucketed(terms, buckets, |terms|) && order == BucketOrder(buckets) && step < |order|
    requires PlacedThrough(terms, buckets, order[..step], all, assign)
    requires order[step] < |buckets|
    requires if (|buckets[order[step]]| > 1) != all
             then forall i :: 0 <= i < |terms| ==> (i in after <==> i in assign || i in buckets[order[step]])
             else after == assign
    ensures PlacedThrough(terms, buckets, order[..step + 1], all, after)
  {
    var b := order[step];
    assert order[..step + 1] == order[..step] + [b];
    forall i | 0 <= i < |terms| ensures i in buckets[b] <==> BucketOf(terms[i], |buckets|) == b {
    }
  }

  /** First phase: every bucket of two or more terms searches for a displacement. */
  method PlaceCollidingBuckets(
    terms: seq<TermEntry>, strings: seq<byte>, ghost keys: seq<Text>, seeded: Seeded,
    buckets: seq<seq<nat>>, order: seq<nat>,
    used: array<bool>, slots: array<Option<TermEntry>>, displacements: array<int>)
    returns (r: Result<()>, ghost assign: map<nat, nat>)
    requires Keyed(terms, keys, strings) && buckets == BucketsOf(terms)
    requires order == BucketOrder(buckets)
    requires used.Length == slots.Length == |terms| > 0
    requires forall s :: 0 <= s < used.Length ==> !used[s]
    requires Phase(terms, keys, seeded, buckets, used[..], slots[..], displacements[..], map[])
    modifies used, slots, displacements
    ensures r.Ok? ==>
              Phase(terms, keys, seeded, buckets, used[..], slots[..], displacements[..], assign)
    ensures r.Ok? ==> PlacedThrough(terms, buckets, order, false, assign)
    ensures r.Err? <==> GetsStuck(terms, keys, seeded)
  {
    hide *;
    BucketOrderVisitsOnce(buckets);
    assign := map[];
    SearchBegins(terms, keys, seeded, buckets, used[..], slots[..], displacements[..]);
    assert order[..0] == [];
    var step := 0;
    while step < |order|
      invariant 0 <= step <= |order|
      invariant Phase(terms, keys, seeded, buckets, used[..], slots[..], displacements[..], assign)
      invariant PlacedThrough(terms, buckets, order[..step], false, assign)
      invariant Searched(terms, keys, seeded, step) == Some(used[..])
      invariant forall earlier :: 0 <= earlier < step ==> !StuckAt(terms, keys, seeded, earlier)
    {
      var b := order[step];
      assert b in order;
      ghost var before, taken, d := assign, used[..], 0;
      NextVisited(terms, keys, seeded, buckets, order, step, used[..], slots[..], displacements[..], assign);
      if |buckets[b]| > 1 {
        r, assign, d := PlaceColliding(terms, strings, keys, seeded, buckets, b, buckets[b],
                                       used, slots, displacements, assign);
        if r.Err? {
          StuckHere(terms, keys, seeded, step, taken);
          return;
        }
      }
      SearchStep(terms, keys, seeded, step, taken, d, used[..]);
      VisitBucket(terms, buckets, order, step, false, before, assign);
      step := step + 1;
    }
    assert order[..step] == order;
    NeverStuck(terms, keys, seeded);
    r := Ok(());
  }

  lemma SearchBegins(
    terms: seq<TermEntry>, keys: seq<Text>, seeded: Seeded, buckets: seq<seq<nat>>,
    used: seq<bool>, slots: seq<Option<TermEntry>>, displacements: seq<int>)
    requires Phase(terms, keys, seeded, buckets, used, slots, displacements, map[])
    requires |used| == |terms| && forall s :: 0 <= s < |used| ==> !used[s]
    ensures |keys| == |terms| > 0 && Searched(terms, keys, seeded, 0) == Some(used)
    ensures |buckets| > 0 && PlacedThrough(terms, buckets, [], false, map[])
  {
    assert used == seq(|terms|, _ => false);
  }

  /** The bucket visited next: none of its terms is placed yet. */
  lemma NextVisited(
    terms: seq<TermEntry>, keys: seq<Text>, seeded: Seeded, buckets: seq<seq<nat>>, order: seq<nat>, step: nat,
    used: seq<bool>, slots: seq<Option<TermEntry>>, displacements: seq<int>, assign: map<nat, nat>)
    requires Phase(terms, keys, seeded, buckets, used, slots, displacements, assign) && |buckets| > 0
    requires buckets == BucketsOf(terms) && order == BucketOrder(buckets) && step < |order|
    requires PlacedThrough(terms, buckets, order[..step], false, assign)
    ensures |order| == |buckets| == BucketCount(|terms|) && order[step] < |buckets|
    ensures buckets[order[step]] == Visited(terms, step) && Bucketed(terms, buckets, |terms|)
    ensures |keys| == |terms| > 0
    ensures |buckets[order[step]]| > 1 ==>
              forall i :: i in assign ==> i < |terms| && BucketOf(terms[i], |buckets|) != order[step]
  {
    hide BucketsOf, BucketOrder, BucketOf, Bucketed;
    BucketOrderVisitsOnce(buckets);
    var b := order[step];
    assert b in order && b !in order[..step];
  }

  lemma NeverStuck(terms: seq<TermEntry>, keys: seq<Text>, seeded: Seeded)
    requires |keys| == |terms|
    requires |terms| > 0 ==> forall step :: 0 <= step < BucketCount(|terms|) ==> !StuckAt(terms, keys, seeded, step)
    ensures !GetsStuck(terms, keys, seeded)
  {
    hide StuckAt, BucketCount;
  }

  lemma StuckHere(terms: seq<TermEntry>, keys: seq<Text>, seeded: Seeded, step: nat, used: seq<bool>)
    requires |keys| == |terms| > 0 && step < BucketCount(|terms|) && |Visited(terms, step)| > 1
    requires Searched(terms, keys, seeded, step) == Some(used)
    requires Inseparable(Visited(terms, step), keys, used, seeded)
    ensures StuckAt(terms, keys, seeded, step) && GetsStuck(terms, keys, seeded)
  {
    hide Visited, Searched, Inseparable, BucketCount;
    assert StuckAt(terms, keys, seeded, step);
  }

  lemma DistinctChoices(
    bucket: seq<nat>, chosen: seq<nat>, keys: seq<Text>, used: seq<bool>, d: nat, seeded: Seeded)
    requires |used| > 0 && |chosen| == |bucket|
    requires forall k :: 0 <= k < |bucket| ==> bucket[k] < |keys|
    requires Fits(bucket, keys, used, d, seeded)
    requires forall k :: 0 <= k < |bucket| ==> chosen[k] == SlotOf(keys[bucket[k]], d, |used|, seeded)
    ensures forall k :: 0 <= k < |bucket| ==> chosen[k] < |used| && !used[chosen[k]]
    ensures forall k, l :: 0 <= k < l < |bucket| ==> chosen[k] != chosen[l]
  {
  }

  /** The free slots left by the first phase, in increasing order. */
  method FreeSlots(used: array<bool>) returns (free: seq<nat>)
    ensures FreeIs(free, used[..])
  {
    free := [];
    var i := 0;
    while i < used.Length
      invariant 0 <= i <= used.Length
      invariant forall s :: s in free <==> 0 <= s < i && !used[s]
      invariant forall k, l :: 0 <= k < l < |free| ==> free[k] < free[l]
    {
      if !used[i] {
        assert forall k :: 0 <= k < |free| ==> free[k] in free;
        free := free + [i];
      }
      i := i + 1;
    }
    assert forall k :: 0 <= k < |free| ==> free[k] in free;
  }

  /** One bucket of the second phase takes the next free slot. */
  method PlaceSingle(
    terms: seq<TermEntry>, ghost keys: seq<Text>, ghost seeded: Seeded,
    ghost buckets: seq<seq<nat>>, b: nat, i: nat, slot: nat,
    used: array<bool>, slots: array<Option<TermEntry>>, displacements: array<int>,
    ghost assign: map<nat, nat>)
    returns (ghost placed: map<nat, nat>)
    requires slot < |terms| <= I32_MAX && i < |terms| && b < |buckets| && i !in assign
    requires used.Length == slots.Length == |terms| && !used[slot]
    requires Phase(terms, keys, seeded, buckets, used[..], slots[..], displacements[..], assign)
    requires BucketOf(terms[i], |buckets|) == b
    requires forall j :: j in assign ==> BucketOf(terms[j], |buckets|) != b
    modifies used, slots, displacements
    ensures Phase(terms, keys, seeded, buckets, used[..], slots[..], displacements[..], placed)
    ensures used[..] == old(used[..])[slot := true]
    ensures placed == assign[i := slot]
  {
    PlaceOne(terms, assign, used[..], slots[..], i, slot);
    SetDisplacement(terms, keys, seeded, assign, displacements[..], b, -(slot + 1));
    ghost var u, s, d := used[..], slots[..], displacements[..];
    used[slot] := true;
    slots[slot] := Some(terms[i]);
    displacements[b] := -(slot + 1);
    assert used[..] == u[slot := true] && slots[..] == s[slot := Some(terms[i])];
    assert displacements[..] == d[b := -(slot + 1)];
    placed := assign[i := slot];
  }

  ghost predicate FreeIs(free: seq<nat>, used: seq<bool>) {
    && (forall k :: 0 <= k < |free| ==> free[k] < |used|)
    && (forall k, l :: 0 <= k < l < |free| ==> free[k] < free[l])
    && (forall s :: 0 <= s < |used| ==> (!used[s] <==> s in free))
  }

  lemma TakeFree(free: seq<nat>, used: seq<bool>, after: seq<bool>)
    requires |free| > 0 && FreeIs(free, used)
    requires after == used[free[0] := true]
    ensures FreeIs(free[1..], after)
  {
    assert free == [free[0]] + free[1..];
    assert free[0] !in free[1..];
  }

  /** Before a bucket is visited none of its single term is placed, so a slot is still free for it. */
  lemma SingleReady(
    terms: seq<TermEntry>, keys: seq<Text>, seeded: Seeded,
    buckets: seq<seq<nat>>, order: seq<nat>, step: nat,
    used: seq<bool>, slots: seq<Option<TermEntry>>, displacements: seq<int>,
    assign: map<nat, nat>, free: seq<nat>)
    requires Phase(terms, keys, seeded, buckets, used, slots, displacements, assign)
    requires order == BucketOrder(buckets) && step < |order|
    requires PlacedThrough(terms, buckets, order[..step], true, assign) && FreeIs(free, used)
    requires order[step] < |buckets| && |buckets[order[step]]| == 1
    ensures var b, i := order[step], buckets[order[step]][0];
            && i < |terms| && BucketOf(terms[i], |buckets|) == b
            && i !in assign
            && (forall j :: j in assign ==> BucketOf(terms[j], |buckets|) != b)
    ensures |free| > 0 && free[0] < |used| && !used[free[0]]
  {
    BucketOrderVisitsOnce(buckets);
    var b, i := order[step], buckets[order[step]][0];
    assert b !in order[..step];
    FreeSlotExists(terms, assign, used, slots, i);
    assert free != [];
    assert free[0] in free;
  }

  /** Second phase: single terms take the free slots, and never run out of them. */
  method PlaceSingletons(
    terms: seq<TermEntry>, ghost keys: seq<Text>, ghost seeded: Seeded,
    buckets: seq<seq<nat>>, order: seq<nat>,
    used: array<bool>, slots: array<Option<TermEntry>>, displacements: array<int>,
    ghost colliding: map<nat, nat>)
    returns (r: Result<()>, ghost assign: map<nat, nat>)
    requires 0 < |terms| <= I32_MAX && order == BucketOrder(buckets)
    requires used.Length == slots.Length == |terms|
    requires Phase(terms, keys, seeded, buckets, used[..], slots[..], displacements[..], colliding)
    requires PlacedThrough(terms, buckets, [], true, colliding)
    modifies used, slots, displacements
    ensures r.Ok?
    ensures Phase(terms, keys, seeded, buckets, used[..], slots[..], displacements[..], assign)
    ensures PlacedThrough(terms, buckets, order, true, assign)
  {
    BucketOrderVisitsOnce(buckets);
    assign := colliding;
    var free := FreeSlots(used);
    assert order[..0] == [];
    hide Placed, Displaced, PlacedThrough, FreeIs, BucketOf, BucketOrder;
    var step := 0;
    while step < |order|
      invariant 0 <= step <= |order|
      invariant Phase(terms, keys, seeded, buckets, used[..], slots[..], displacements[..], assign)
      invariant FreeIs(free, used[..])
      invariant PlacedThrough(terms, buckets, order[..step], true, assign)
    {
      var b := order[step];
      assert b in order;
      ghost var before := assign;
      if |buckets[b]| == 1 {
        SingleReady(terms, keys, seeded, buckets, order, step,
                    used[..], slots[..], displacements[..], assign, free);
        if |free| == 0 {
          assert false;
          return Err("CHD ran out of singleton slots"), assign;
        }
        ghost var taken := used[..];
        assign := PlaceSingle(terms, keys, seeded, buckets, b, buckets[b][0], free[0],
                              used, slots, displacements, assign);
        TakeFree(free, taken, used[..]);
        free := free[1..];
      }
      VisitBucket(terms, buckets, order, step, true, before, assign);
      step := step + 1;
    }
    assert order[..step] == order;
    r := Ok(());
  }

  /** After both phases every term is placed, so no slot is left empty. */
  lemma EverythingPlaced(
    terms: seq<TermEntry>, buckets: seq<seq<nat>>,
    used: seq<bool>, slots: seq<Option<TermEntry>>, assign: map<nat, nat>)
    requires Bucketed(terms, buckets, |terms|) && Placed(terms, assign, used, slots)
    requires PlacedThrough(terms, buckets, BucketOrder(buckets), true, assign)
    ensures forall i :: 0 <= i < |terms| ==> i in assign
    ensures forall s :: 0 <= s < |used| ==> used[s] && slots[s].Some?
  {
    BucketOrderVisitsOnce(buckets);
    forall i | 0 <= i < |terms| ensures i in assign {
      assert i in buckets[BucketOf(terms[i], |buckets|)];
      assert BucketOf(terms[i], |buckets|) in BucketOrder(buckets);
    }
    AllSlotsFilled(terms, assign, used, slots);
    forall s | 0 <= s < |used| ensures slots[s].Some? {
      assert s in assign.Values;
    }
  }

  lemma SlotsOccupied(
    terms: seq<TermEntry>, keys: seq<Text>, seeded: Seeded,
    used: seq<bool>, slots: seq<Option<TermEntry>>, displacements: seq<int>, assign: map<nat, nat>, s: nat)
    requires Placed(terms, assign, used, slots) && |displacements| == BucketCount(|terms|)
    requires Displaced(terms, keys, seeded, assign, displacements)
    requires s < |used| && used[s]
    ensures Occupied(s, terms, keys, seeded, displacements, Filled(slots))
  {
    assert s in assign.Values;
    var i :| i in assign && assign[i] == s;
    assert Filled(slots)[s] == terms[i];
  }

  lemma PlacedIsPerfect(
    terms: seq<TermEntry>, keys: seq<Text>, seeded: Seeded,
    used: seq<bool>, slots: seq<Option<TermEntry>>, displacements: seq<int>, assign: map<nat, nat>)
    requires Placed(terms, assign, used, slots) && |displacements| == BucketCount(|terms|)
    requires Displaced(terms, keys, seeded, assign, displacements)
    requires forall i :: 0 <= i < |terms| ==> i in assign
    requires forall s :: 0 <= s < |used| ==> used[s]
    ensures Perfect(terms, keys, seeded, displacements, Filled(slots))
  {
    var filled := Filled(slots);
    forall i | 0 <= i < |terms| ensures Resolves(terms[i], keys[i], seeded, displacements, filled) {
      assert slots[assign[i]] == Some(terms[i]);
    }
    forall s | 0 <= s < |terms| ensures Occupied(s, terms, keys, seeded, displacements, filled) {
      SlotsOccupied(terms, keys, seeded, used, slots, displacements, assign, s);
    }
    forall i, j | 0 <= i < j < |terms|
      ensures SlotOf(keys[i], displacements[BucketOf(terms[i], |displacements|)], |terms|, seeded)
           != SlotOf(keys[j], displacements[BucketOf(terms[j], |displacements|)], |terms|, seeded)
    {
      assert assign[i] != assign[j];
    }
  }

  function Filled(slots: seq<Option<TermEntry>>): (filled: seq<TermEntry>)
    ensures |filled| == |slots|
    ensures forall s :: 0 <= s < |slots| && slots[s].Some? ==> filled[s] == slots[s].value
  {
    seq(|slots|, s requires 0 <= s < |slots| =>
      if slots[s].Some? then slots[s].value else TermEntry(0, StringRef(0, 0), 0, 0))
  }

  /** The self-check before publishing passes exactly when every key resolves to its own bytes. */
  method Validate(
    terms: seq<TermEntry>, strings: seq<byte>, ghost keys: seq<Text>, seeded: Seeded,
    displacements: seq<int>, slots: seq<TermEntry>)
    returns (r: Result<()>)
    requires |terms| > 0 && Keyed(terms, keys, strings)
    requires |slots| == |terms| && |displacements| == BucketCount(|terms|)
    requires forall i :: 0 <= i < |terms| ==>
               0 <= SlotOf(keys[i], displacements[BucketOf(terms[i], |displacements|)], |terms|, seeded) < |terms|
    ensures r.Ok? <==> forall i :: 0 <= i < |terms| ==>
              ResolvesBytes(terms[i], keys[i], strings, seeded, displacements, slots)
  {
    var i := 0;
    while i < |terms|
      invariant 0 <= i <= |terms|
      invariant forall j :: 0 <= j < i ==>
                  ResolvesBytes(terms[j], keys[j], strings, seeded, displacements, slots)
    {
      var key := StringBytes(strings, terms[i].text).value;
      var displacement := displacements[BucketOf(terms[i], |displacements|)];
      var resolved := slots[SlotOf(key, displacement, |terms|, seeded)];
      assert ResolvesBytes(terms[i], keys[i], strings, seeded, displacements, slots)
         <==> resolved.hash == terms[i].hash && StringBytes(strings, resolved.text) == Ok(key);
      var other :- StringBytes(strings, resolved.text);
      if resolved.hash != terms[i].hash || other != key {
        return Err("CHD validation failed");
      }
      i := i + 1;
    }
    r := Ok(());
  }

  ghost predicate ResolvesBytes(
    term: TermEntry, key: Text, strings: seq<byte>, seeded: Seeded,
    displacements: seq<int>, slots: seq<TermEntry>)
    requires |slots| > 0 && |displacements| == BucketCount(|slots|)
  {
    var slot := SlotOf(key, displacements[BucketOf(term, |displacements|)], |slots|, seeded);
    0 <= slot < |slots| && slots[slot].hash == term.hash
    && StringBytes(strings, slots[slot].text) == Ok(key)
  }

  lemma PerfectResolvesBytes(
    terms: seq<TermEntry>, strings: seq<byte>, keys: seq<Text>, seeded: Seeded,
    displacements: seq<int>, slots: seq<TermEntry>)
    requires |terms| > 0 && Keyed(terms, keys, strings)
    requires Perfect(terms, keys, seeded, displacements, slots)
    ensures forall i :: 0 <= i < |terms| ==>
              ResolvesBytes(terms[i], keys[i], strings, seeded, displacements, slots)
  {
    forall i | 0 <= i < |terms|
      ensures ResolvesBytes(terms[i], keys[i], strings, seeded, displacements, slots)
    {
      assert Resolves(terms[i], keys[i], seeded, displacements, slots);
      assert StringBytes(strings, terms[i].text) == Ok(keys[i]);
    }
  }

  datatype MphBuild = MphBuild(displacements: seq<int>, slots: seq<TermEntry>)

  /**
   * For distinct keys and any hash functions, construction fails exactly past `i32::MAX` terms or
   * when the displacement search reaches a bucket it cannot separate; otherwise the hash is perfect.
   */
  method BuildMph(terms: seq<TermEntry>, strings: seq<byte>, ghost keys: seq<Text>, seeded: Seeded)
    returns (r: Result<MphBuild>)
    requires Keyed(terms, keys, strings)
    ensures r.Err? <==> |terms| > I32_MAX || GetsStuck(terms, keys, seeded)
    ensures r.Ok? ==> Perfect(terms, keys, seeded, r.value.displacements, r.value.slots)
  {
    if |terms| == 0 {
      return Ok(MphBuild([], []));
    }
    if |terms| > I32_MAX {
      return Err("CHD candidate supports at most i32::MAX terms");
    }
    var buckets := FillBuckets(terms);
    var order := BucketOrder(buckets);
    var used := new bool[|terms|](_ => false);
    var slots := new Option<TermEntry>[|terms|](_ => None);
    var displacements := new int[BucketCount(|terms|)](_ => I32_MIN);
    ghost var assign: map<nat, nat>;
    r, assign := BuildPhases(terms, strings, keys, seeded, buckets, order, used, slots, displacements);
  }

  method BuildPhases(
    terms: seq<TermEntry>, strings: seq<byte>, ghost keys: seq<Text>, seeded: Seeded,
    buckets: seq<seq<nat>>, order: seq<nat>,
    used: array<bool>, slots: array<Option<TermEntry>>, displacements: array<int>)
    returns (r: Result<MphBuild>, ghost assign: map<nat, nat>)
    requires Keyed(terms, keys, strings) && 0 < |terms| <= I32_MAX
    requires buckets == BucketsOf(terms) && order == BucketOrder(buckets)
    requires used.Length == slots.Length == |terms| && forall s :: 0 <= s < used.Length ==> !used[s]
    requires Phase(terms, keys, seeded, buckets, used[..], slots[..], displacements[..], map[])
    modifies used, slots, displacements
    ensures r.Err? <==> GetsStuck(terms, keys, seeded)
    ensures r.Ok? ==> Perfect(terms, keys, seeded, r.value.displacements, r.value.slots)
  {
    var colliding;
    colliding, assign :=
      PlaceCollidingBuckets(terms, strings, keys, seeded, buckets, order, used, slots, displacements);
    if colliding.Err? {
      return Err(colliding.message), assign;
    }
    BucketOrderVisitsOnce(buckets);
    var singles;
    singles, assign :=
      PlaceSingletons(terms, keys, seeded, buckets, order, used, slots, displacements, assign);
    EverythingPlaced(terms, buckets, used[..], slots[..], assign);
    PlacedIsPerfect(terms, keys, seeded, used[..], slots[..], displacements[..], assign);
    if !AllTrue(used[..]) {
      return Err("CHD did not fill every term slot"), assign;
    }
    var filled := Filled(slots[..]);
    PerfectResolvesBytes(terms, strings, keys, seeded, displacements[..], filled);
    var valid := Validate(terms, strings, keys, seeded, displacements[..], filled);
    if valid.Err? {
      return Err("CHD validation failed"), assign;
    }
    r := Ok(MphBuild(displacements[..], filled));
  }

  predicate AllTrue(used: seq<bool>) {
    forall s :: 0 <= s < |used| ==> used[s]
  }
}
